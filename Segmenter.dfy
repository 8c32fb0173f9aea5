/**
 * The script segmenter (`split_text_by_script`): a caption line is cut into
 * maximal runs of CJK unified ideographs and of everything else, so that each
 * run can be drawn with the font that has glyphs for it.
 */
module ScriptSegmenter {
  import opened Options

  /** A CJK unified ideograph: a code point in U+4E00..U+9FFF. */
  predicate IsCjk(c: char) {
    0x4E00 <= c as int <= 0x9FFF
  }

  /** One run: its text and whether it is made of ideographs. */
  datatype Segment = Segment(text: string, isCjk: bool)

  /** The texts of the segments, one after the other. */
  function Concat(segs: seq<Segment>): string {
    if segs == [] then [] else Concat(segs[..|segs| - 1]) + segs[|segs| - 1].text
  }

  /** A segment is non-empty and every character in it has the segment's class. */
  predicate Uniform(seg: Segment) {
    seg.text != [] && forall k :: 0 <= k < |seg.text| ==> IsCjk(seg.text[k]) == seg.isCjk
  }

  /** Independent description of a correct segmentation of `s`: the segments
      give back `s`, each is uniform, and neighbours differ in class (so every
      run is maximal). */
  predicate IsScriptPartition(s: string, segs: seq<Segment>) {
    && Concat(segs) == s
    && (forall i :: 0 <= i < |segs| ==> Uniform(segs[i]))
    && (forall i :: 0 < i < |segs| ==> ClassChangesAt(segs, i))
  }

  /** The run at `i` has the other class than the run before it. */
  predicate ClassChangesAt(segs: seq<Segment>, i: int)
    requires 0 < i < |segs|
  {
    segs[i - 1].isCjk != segs[i].isCjk
  }

  /** Reference definition: the runs of `s`, built one character at a time
      from the left; the last character either extends the last run or, when
      its class differs, opens a new one. */
  function Runs(s: string): seq<Segment> {
    if s == [] then [] else AddChar(Runs(s[..|s| - 1]), s[|s| - 1])
  }

  /** One step of the reference definition. */
  function AddChar(segs: seq<Segment>, c: char): seq<Segment> {
    if segs != [] && segs[|segs| - 1].isCjk == IsCjk(c) then
      segs[..|segs| - 1] + [Segment(segs[|segs| - 1].text + [c], IsCjk(c))]
    else
      segs + [Segment([c], IsCjk(c))]
  }

  /** `split_text_by_script(text)`: one pass over the characters, keeping the
      run being built and its class (`None` before the first character). */
  method SplitTextByScript(text: string) returns (segments: seq<Segment>)
    ensures segments == Runs(text)
  {
    segments := [];
    var current: string := [];
    var currentIsCjk: Option<bool> := None;
    for i := 0 to |text|
      invariant i == 0 ==> current == [] && currentIsCjk == None && segments == []
      invariant i > 0 ==> currentIsCjk.Some? && current != []
      invariant i > 0 ==> Runs(text[..i]) == segments + [Segment(current, currentIsCjk.value)]
    {
      var c := text[i];
      var isCjk := IsCjk(c);
      RunsStep(text, i);
      if currentIsCjk.None? {
        currentIsCjk := Some(isCjk);
      }
      if isCjk == currentIsCjk.value {
        if i == 0 {
          assert current + [c] == [c];
        } else {
          AddCharSame(segments, Segment(current, isCjk), c);
        }
        current := current + [c];
      } else {
        AddCharOther(segments, Segment(current, currentIsCjk.value), c);
        segments := segments + [Segment(current, currentIsCjk.value)];
        current := [c];
        currentIsCjk := Some(isCjk);
      }
    }
    if current != [] {
      segments := segments + [Segment(current, currentIsCjk.value)];
    }
    assert text[..|text|] == text;
  }

  /** The reference runs of one more character are one step further. */
  lemma RunsStep(text: string, i: nat)
    requires i < |text|
    ensures Runs(text[..i + 1]) == AddChar(Runs(text[..i]), text[i])
  {
    assert text[..i + 1][..i] == text[..i];
  }

  /** A character of the other class closes the open run and opens a new one. */
  lemma AddCharOther(closed: seq<Segment>, open: Segment, c: char)
    requires open.isCjk != IsCjk(c)
    ensures AddChar(closed + [open], c) == closed + [open] + [Segment([c], IsCjk(c))]
  {
    var segs := closed + [open];
    assert segs[|segs| - 1] == open;
  }

  /** A character of the open run's class extends the open run. */
  lemma AddCharSame(closed: seq<Segment>, open: Segment, c: char)
    requires open.isCjk == IsCjk(c)
    ensures AddChar(closed + [open], c) == closed + [Segment(open.text + [c], open.isCjk)]
  {
    var segs := closed + [open];
    assert segs[..|segs| - 1] == closed && segs[|segs| - 1] == open;
  }

  lemma ConcatSnoc(segs: seq<Segment>, seg: Segment)
    ensures Concat(segs + [seg]) == Concat(segs) + seg.text
  {
    assert (segs + [seg])[..|segs|] == segs;
  }

  /** Appending a uniform run of the other class to a correct segmentation
      gives a correct segmentation of the longer string. */
  lemma PartitionSnoc(p: string, segs: seq<Segment>, seg: Segment)
    requires IsScriptPartition(p, segs) && Uniform(seg)
    requires segs != [] ==> segs[|segs| - 1].isCjk != seg.isCjk
    ensures IsScriptPartition(p + seg.text, segs + [seg])
  {
    var t := segs + [seg];
    ConcatSnoc(segs, seg);
    forall i | 0 <= i < |t| ensures Uniform(t[i]) {
      if i < |segs| { assert t[i] == segs[i]; }
    }
    forall i | 0 < i < |t| ensures ClassChangesAt(t, i) {
      if i < |segs| { assert ClassChangesAt(segs, i); }
    }
  }

  /** Dropping the last segment of a correct segmentation leaves a correct
      segmentation of the rest, and the dropped run is what follows it. */
  lemma PartitionFront(s: string, segs: seq<Segment>)
    requires segs != [] && IsScriptPartition(s, segs)
    ensures IsScriptPartition(Concat(segs[..|segs| - 1]), segs[..|segs| - 1])
    ensures s == Concat(segs[..|segs| - 1]) + segs[|segs| - 1].text
    ensures Uniform(segs[|segs| - 1])
    ensures |segs| > 1 ==> segs[|segs| - 2].isCjk != segs[|segs| - 1].isCjk
  {
    if |segs| > 1 { assert ClassChangesAt(segs, |segs| - 1); }
    var f := segs[..|segs| - 1];
    forall i | 0 <= i < |f| ensures Uniform(f[i]) {
      assert f[i] == segs[i];
    }
    forall i | 0 < i < |f| ensures ClassChangesAt(f, i) {
      assert ClassChangesAt(segs, i);
    }
  }

  /** Extending the last run of a correct segmentation by one character of
      its class keeps it correct. */
  lemma PartitionExtend(p: string, segs: seq<Segment>, c: char)
    requires IsScriptPartition(p, segs)
    requires segs != [] && segs[|segs| - 1].isCjk == IsCjk(c)
    ensures IsScriptPartition(p + [c],
      segs[..|segs| - 1] + [Segment(segs[|segs| - 1].text + [c], IsCjk(c))])
  {
    var front := segs[..|segs| - 1];
    var last := segs[|segs| - 1];
    PartitionFront(p, segs);
    if |segs| > 1 {
      assert front[|front| - 1] == segs[|segs| - 2];
    }
    var grown := Segment(last.text + [c], IsCjk(c));
    UniformGrow(last, c);
    PartitionSnoc(Concat(front), front, grown);
    assert Concat(front) + grown.text == p + [c];
  }

  /** A uniform run stays uniform when a character of its class is appended. */
  lemma UniformGrow(seg: Segment, c: char)
    requires Uniform(seg) && seg.isCjk == IsCjk(c)
    ensures Uniform(Segment(seg.text + [c], IsCjk(c)))
  {
    var t := seg.text + [c];
    forall k | 0 <= k < |t| ensures IsCjk(t[k]) == IsCjk(c) {
      if k < |seg.text| { assert t[k] == seg.text[k]; }
    }
  }

  /** One step of the reference definition keeps a segmentation correct. */
  lemma PartitionAddChar(p: string, segs: seq<Segment>, c: char)
    requires IsScriptPartition(p, segs)
    ensures IsScriptPartition(p + [c], AddChar(segs, c))
  {
    if segs != [] && segs[|segs| - 1].isCjk == IsCjk(c) {
      PartitionExtend(p, segs, c);
    } else {
      PartitionSnoc(p, segs, Segment([c], IsCjk(c)));
    }
  }

  /** The reference runs are a correct segmentation. */
  lemma {:induction false} RunsPartition(s: string)
    ensures IsScriptPartition(s, Runs(s))
    decreases |s|
  {
    if s != [] {
      var p := s[..|s| - 1];
      RunsPartition(p);
      PartitionAddChar(p, Runs(p), s[|s| - 1]);
      assert p + [s[|s| - 1]] == s;
    }
  }

  /** A correct segmentation is unique: two of the same string are equal. */
  lemma {:induction false} PartitionUnique(s: string, a: seq<Segment>, b: seq<Segment>)
    requires IsScriptPartition(s, a) && IsScriptPartition(s, b)
    ensures a == b
    decreases |s|
  {
    if a != [] && b != [] {
      var fa, fb := a[..|a| - 1], b[..|b| - 1];
      SameLastRun(s, a, b);
      PartitionUnique(Concat(fa), fa, fb);
      assert a == fa + [a[|a| - 1]] && b == fb + [b[|b| - 1]];
    } else if a != [] {
      PartitionFront(s, a);
    } else if b != [] {
      PartitionFront(s, b);
    }
  }

  /** Two correct segmentations of a non-empty string end in the same run,
      and what precedes it is a correct segmentation of the same shorter
      string in both. */
  lemma SameLastRun(s: string, a: seq<Segment>, b: seq<Segment>)
    requires a != [] && b != [] && IsScriptPartition(s, a) && IsScriptPartition(s, b)
    ensures a[|a| - 1] == b[|b| - 1]
    ensures Concat(a[..|a| - 1]) == Concat(b[..|b| - 1])
    ensures |Concat(a[..|a| - 1])| < |s|
    ensures IsScriptPartition(Concat(a[..|a| - 1]), a[..|a| - 1])
    ensures IsScriptPartition(Concat(b[..|b| - 1]), b[..|b| - 1])
  {
    PartitionFront(s, a);
    PartitionFront(s, b);
    var la, lb := a[|a| - 1], b[|b| - 1];
    // Both last runs end with the last character of `s`, so they share its class.
    assert la.text[|la.text| - 1] == s[|s| - 1] == lb.text[|lb.text| - 1];
    LastRunLength(s, a, b);
    LastRunLength(s, b, a);
    assert la.text == s[|s| - |la.text|..];
    assert lb.text == s[|s| - |lb.text|..];
  }

  /** If two segmentations of `s` end in runs of the same class, the run of
      the first is no longer than that of the second: otherwise the run
      before the second's last one would end inside the first's last run,
      in the same class, contradicting maximality. */
  lemma LastRunLength(s: string, a: seq<Segment>, b: seq<Segment>)
    requires IsScriptPartition(s, a) && IsScriptPartition(s, b)
    requires a != [] && b != [] && a[|a| - 1].isCjk == b[|b| - 1].isCjk
    ensures |a[|a| - 1].text| <= |b[|b| - 1].text|
  {
    PartitionFront(s, a);
    PartitionFront(s, b);
    LastRunClass(s, a);
    CharBeforeLastRun(s, b);
  }

  /** Every character in the last run of a correct segmentation has its class. */
  lemma LastRunClass(s: string, segs: seq<Segment>)
    requires segs != [] && IsScriptPartition(s, segs)
    ensures var last := segs[|segs| - 1];
      forall k :: |s| - |last.text| <= k < |s| ==> IsCjk(s[k]) == last.isCjk
  {
    var last := segs[|segs| - 1];
    PartitionFront(s, segs);
    forall k | |s| - |last.text| <= k < |s| ensures IsCjk(s[k]) == last.isCjk {
      assert s[k] == last.text[k - (|s| - |last.text|)];
    }
  }

  /** In a correct segmentation with more than one run, the character just
      before the last run has the other class; with one run, that run is all
      of `s`. */
  lemma CharBeforeLastRun(s: string, segs: seq<Segment>)
    requires segs != [] && IsScriptPartition(s, segs)
    ensures var last := segs[|segs| - 1];
      && (|segs| == 1 ==> last.text == s)
      && (|segs| > 1 ==> |last.text| < |s| && IsCjk(s[|s| - |last.text| - 1]) != last.isCjk)
  {
    var last := segs[|segs| - 1];
    var front := segs[..|segs| - 1];
    PartitionFront(s, segs);
    if |segs| > 1 {
      PartitionFront(Concat(front), front);
      var prev := front[|front| - 1];
      var p := Concat(front);
      assert s[|s| - |last.text| - 1] == p[|p| - 1] == prev.text[|prev.text| - 1];
    }
  }

  /** The segmentation is determined by its defining properties, both ways. */
  lemma RunsCharacterized(s: string, segs: seq<Segment>)
    ensures Runs(s) == segs <==> IsScriptPartition(s, segs)
  {
    RunsPartition(s);
    if IsScriptPartition(s, segs) {
      PartitionUnique(s, Runs(s), segs);
    }
  }

  /** Empty input gives no segments, and only empty input does. */
  lemma RunsEmpty(s: string)
    ensures Runs(s) == [] <==> s == []
  {
    RunsPartition(s);
  }

  /** Other text, then ideographs, then other text: three runs. */
  lemma ThreeRuns(a: string, c: string, d: string)
    requires Uniform(Segment(a, false)) && Uniform(Segment(c, true)) && Uniform(Segment(d, false))
    ensures Runs(a + c + d) == [Segment(a, false), Segment(c, true), Segment(d, false)]
  {
    ThreeRunsPartition(a, c, d);
    RunsCharacterized(a + c + d, [Segment(a, false), Segment(c, true), Segment(d, false)]);
  }

  lemma ThreeRunsPartition(a: string, c: string, d: string)
    requires Uniform(Segment(a, false)) && Uniform(Segment(c, true)) && Uniform(Segment(d, false))
    ensures IsScriptPartition(a + c + d, [Segment(a, false), Segment(c, true), Segment(d, false)])
  {
    var s0, s1, s2 := Segment(a, false), Segment(c, true), Segment(d, false);
    assert IsScriptPartition(a, [s0]) by {
      assert IsScriptPartition([], []);
      PartitionSnoc([], [], s0);
      assert [] + a == a && [] + [s0] == [s0];
    }
    assert IsScriptPartition(a + c, [s0, s1]) by {
      PartitionSnoc(a, [s0], s1);
      assert [s0] + [s1] == [s0, s1];
    }
    PartitionSnoc(a + c, [s0, s1], s2);
    assert [s0, s1] + [s2] == [s0, s1, s2];
  }

  /** A line mixing Latin and CJK text splits into three runs. */
  lemma MixedLineExample()
    ensures Runs("abc\U{6F22}\U{5B57}def") ==
      [Segment("abc", false), Segment("\U{6F22}\U{5B57}", true), Segment("def", false)]
  {
    assert "abc" + "\U{6F22}\U{5B57}" + "def" == "abc\U{6F22}\U{5B57}def";
    ThreeRuns("abc", "\U{6F22}\U{5B57}", "def");
  }
}

/**
 * The tech-stack chip parse that src/components/Experience.tsx and
 * src/components/ProjectModal.tsx both apply to a `"Label: a, b, c"` string:
 * `techStack.split(":")[1].split(",").map(t => t.trim())`.
 */
module TechStack {
  import opened Wrappers
  import opened Strings

  const LabelSeparator := ':'
  const ChipSeparator := ','

  /** `split(":")[1]` is `undefined` and the chained `.split` throws a TypeError. */
  datatype ParseError = MissingLabelSeparator

  /**
   * `techStack.split(":")[1]`: exists exactly when the string holds a ':'.
   * What the segment is, is stated by `SegmentSpec`.
   */
  function Segment(techStack: string): (r: Result<string, ParseError>)
    ensures r.Success? <==> LabelSeparator in techStack
  {
    var parts := Split(techStack, LabelSeparator);
    if |parts| < 2 then Failure(MissingLabelSeparator)
    else
      assert parts == [techStack[..IndexOf(techStack, LabelSeparator)]]
        + Split(techStack[IndexOf(techStack, LabelSeparator) + 1..], LabelSeparator);
      Success(parts[1])
  }

  /** The segment is the ':'-free text right after the first ':', running up to the next ':' or the end. */
  lemma SegmentSpec(techStack: string)
    requires LabelSeparator in techStack
    ensures var i := IndexOf(techStack, LabelSeparator);
      var r := Segment(techStack).value;
      && LabelSeparator !in r
      && r <= techStack[i + 1..]
      && (i + 1 + |r| == |techStack| || techStack[i + 1 + |r|] == LabelSeparator)
  {
    var i := IndexOf(techStack, LabelSeparator);
    assert Split(techStack, LabelSeparator) == [techStack[..i]] + Split(techStack[i + 1..], LabelSeparator);
  }

  /** `.map(t => t.trim())`: one element per piece, each trimmed and no longer than its piece. */
  function TrimAll(pieces: seq<string>): (r: seq<string>)
    ensures |r| == |pieces|
    ensures forall k :: 0 <= k < |r| ==> IsTrimmed(r[k]) && |r[k]| <= |pieces[k]|
  {
    seq(|pieces|, k requires 0 <= k < |pieces| => Trim(pieces[k]))
  }

  /** The chips; the parse fails exactly when there is no ':'. What the chips are, is stated by `ChipsSpec`. */
  function Chips(techStack: string): (r: Result<seq<string>, ParseError>)
    ensures r.Failure? <==> LabelSeparator !in techStack
  {
    match Segment(techStack)
    case Failure(e) => Failure(e)
    case Success(segment) => Success(TrimAll(Split(segment, ChipSeparator)))
  }

  /**
   * The chips are the label segment split on ',' with each piece trimmed,
   * empty pieces kept, in source order: one chip more than the segment has
   * commas, and no chip starts or ends with whitespace.
   */
  lemma ChipsSpec(techStack: string)
    requires LabelSeparator in techStack
    ensures var segment := Segment(techStack).value;
      var chips := Chips(techStack).value;
      && |chips| == Count(segment, ChipSeparator) + 1
      && forall k :: 0 <= k < |chips| ==>
           IsTrimmed(chips[k]) && chips[k] == Trim(Split(segment, ChipSeparator)[k])
  {
  }

  /** The first piece of `a + tail` is `a` when `a` is separator-free and `tail` is empty or starts a new piece. */
  lemma SplitHead(a: string, tail: string, sep: char)
    requires sep !in a && (tail == [] || tail[0] == sep)
    ensures Split(a + tail, sep)[0] == a
  {
    if tail == [] {
      assert a + tail == a;
    } else {
      assert a + tail == a + [sep] + tail[1..];
      IndexOfAfter(a, sep, tail[1..]);
      assert (a + tail)[..|a|] == a;
    }
  }

  /** The label segment of `heading:segment...` is `segment` when the text after it is empty or starts with ':'. */
  lemma SegmentOf(heading: string, segment: string, tail: string)
    requires LabelSeparator !in heading && LabelSeparator !in segment
    requires tail == [] || tail[0] == LabelSeparator
    ensures Segment(heading + [LabelSeparator] + segment + tail) == Success(segment)
  {
    var s := heading + [LabelSeparator] + (segment + tail);
    assert s == heading + [LabelSeparator] + segment + tail;
    IndexOfAfter(heading, LabelSeparator, segment + tail);
    assert s[..|heading|] == heading;
    assert s[|heading| + 1..] == segment + tail;
    SplitHead(segment, tail, LabelSeparator);
  }

  /** Only the text between the first and the second ':' matters; whatever follows a second ':' is dropped. */
  lemma IgnoresAfterSecondSeparator(heading: string, segment: string, rest: string)
    requires LabelSeparator !in heading && LabelSeparator !in segment
    ensures Chips(heading + [LabelSeparator] + segment + [LabelSeparator] + rest)
         == Chips(heading + [LabelSeparator] + segment)
  {
    SegmentOf(heading, segment, [LabelSeparator] + rest);
    assert heading + [LabelSeparator] + segment + ([LabelSeparator] + rest)
        == heading + [LabelSeparator] + segment + [LabelSeparator] + rest;
    SegmentOf(heading, segment, []);
    assert heading + [LabelSeparator] + segment + [] == heading + [LabelSeparator] + segment;
  }

  /** Chips of `heading:p1,p2,...,pn` are the trimmed pieces, when no piece holds a separator. */
  lemma ChipsOfJoin(heading: string, pieces: seq<string>)
    requires |pieces| >= 1 && LabelSeparator !in heading
    requires forall k :: 0 <= k < |pieces| ==> LabelSeparator !in pieces[k] && ChipSeparator !in pieces[k]
    ensures Chips(heading + [LabelSeparator] + Join(pieces, ChipSeparator)) == Success(TrimAll(pieces))
  {
    var segment := Join(pieces, ChipSeparator);
    JoinAvoids(pieces, ChipSeparator, LabelSeparator);
    SegmentOf(heading, segment, []);
    assert heading + [LabelSeparator] + segment + [] == heading + [LabelSeparator] + segment;
    SplitJoin(pieces, ChipSeparator);
  }

  /** Each name written after a space, as the site's data writes them after ':' and ','. */
  function Spaced(names: seq<string>): seq<string> {
    seq(|names|, k requires 0 <= k < |names| => [' '] + names[k])
  }

  /**
   * Round trip of the data format: names written as `heading: n1, n2, ..., nk`
   * parse back to exactly the names, in order.
   */
  lemma ChipsOfList(heading: string, names: seq<string>)
    requires |names| >= 1 && LabelSeparator !in heading
    requires forall k :: 0 <= k < |names| ==>
      IsTrimmed(names[k]) && LabelSeparator !in names[k] && ChipSeparator !in names[k]
    ensures Chips(heading + [LabelSeparator] + Join(Spaced(names), ChipSeparator)) == Success(names)
  {
    var pieces := Spaced(names);
    forall k | 0 <= k < |pieces|
      ensures LabelSeparator !in pieces[k] && ChipSeparator !in pieces[k] && Trim(pieces[k]) == names[k]
    {
      TrimAfterSpace(names[k]);
    }
    ChipsOfJoin(heading, pieces);
    assert TrimAll(pieces) == names;
  }
}

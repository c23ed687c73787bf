/**
 * src/components/Experience.tsx: the fixed list of work experiences and the
 * cards rendered from it, each with its description bullets and its
 * tech-stack chips.
 */
module Experience {
  import opened Wrappers
  import opened Strings
  import opened TechStack

  /** One entry of `experiences`. */
  datatype Entry = Entry(
    title: string,
    company: string,
    duration: string,
    description: seq<string>,
    techStack: string)

  /** What one card shows: heading, byline parts, one bullet per description line, the chips. */
  datatype Card = Card(title: string, company: string, duration: string, bullets: seq<string>, chips: seq<string>)

  /**
   * The two entries of `experiences`, in order. Each tech-stack string is the
   * literal at src/components/Experience.tsx:13 and :24, written here broken at
   * its separators.
   */
  function Experiences(): seq<Entry> {
    [SoftwareEngineer(), FrontendDeveloper()]
  }

  function SoftwareEngineer(): Entry {
    Entry(
      "Software Engineer",
      "Bacancy Technology",
      "06/23 - present",
      SoftwareEngineerDescription(),
      SoftwareEngineerStack())
  }

  function SoftwareEngineerDescription(): seq<string> {
    [ "Developed and maintained " + "web applications using "
        + "ReactJS and Typescript.",
      "Implemented data " + "visualization features "
        + "using Echarts, enhancing " + "the user experience with "
        + "interactive and informative " + "graphical representations.",
      "Collaborated with " + "cross-functional teams to "
        + "design and implement " + "scalable and responsive " + "user interfaces." ]
  }

  function FrontendDeveloper(): Entry {
    Entry(
      "Frontend Developer",
      "Tech Innovators Inc.",
      "01/22 - 05/23",
      FrontendDeveloperDescription(),
      FrontendDeveloperStack())
  }

  function FrontendDeveloperDescription(): seq<string> {
    [ "Led the development of " + "responsive web applications "
        + "using modern JavaScript " + "frameworks.",
      "Optimized application " + "performance resulting in "
        + "40% improvement in load " + "times.",
      "Mentored junior developers " + "and conducted code reviews "
        + "to maintain high code " + "quality standards." ]
  }

  function SoftwareEngineerStack(): string {
    "Tech stack" + ":" + " React" + "," + " TypeScript" + "," + " Redux"
      + "," + " Redux-toolkit" + "," + " Material-UI" + "," + " Node.js"
      + "," + " MySQL" + "," + " PostgreSQL" + "," + " MongoDB"
  }

  function FrontendDeveloperStack(): string {
    "Tech stack" + ":" + " Vue.js" + "," + " JavaScript" + "," + " Vuex"
      + "," + " TailwindCSS" + "," + " Jest" + "," + " AWS"
      + "," + " Docker"
  }

  /** The card for one experience; it fails exactly when the tech stack has no ':'. */
  function CardOf(e: Entry): (r: Result<Card, ParseError>)
    ensures r.Success? <==> Chips(e.techStack).Success?
    ensures r.Success? ==>
      && r.value.title == e.title && r.value.company == e.company && r.value.duration == e.duration
      && r.value.bullets == e.description
      && Chips(e.techStack) == Success(r.value.chips)
  {
    match Chips(e.techStack)
    case Failure(err) => Failure(err)
    case Success(chips) => Success(Card(e.title, e.company, e.duration, e.description, chips))
  }

  /**
   * `xs.map(f)` where `f` may throw: the results in order when every
   * element succeeds, otherwise the failure of the first element that fails.
   */
  function MapAll<A, B, E>(f: A -> Result<B, E>, xs: seq<A>): (r: Result<seq<B>, E>)
    ensures r.Success? <==> forall i :: 0 <= i < |xs| ==> f(xs[i]).Success?
    ensures r.Success? ==> |r.value| == |xs| && forall i :: 0 <= i < |xs| ==> f(xs[i]) == Success(r.value[i])
  {
    if |xs| == 0 then Success([])
    else
      var head := f(xs[0]);
      var rest := MapAll(f, xs[1..]);
      assert forall i :: 1 <= i < |xs| ==> xs[i] == xs[1..][i - 1];
      if head.Failure? then Failure(head.error)
      else if rest.Failure? then Failure(rest.error)
      else Success([head.value] + rest.value)
  }

  /** When the map fails, it fails with the first failing element's error, all elements before it succeeding. */
  lemma {:induction false} MapAllFirstFailure<A, B, E>(f: A -> Result<B, E>, xs: seq<A>)
    requires MapAll(f, xs).Failure?
    ensures exists i ::
      && 0 <= i < |xs|
      && f(xs[i]) == Failure(MapAll(f, xs).error)
      && forall j :: 0 <= j < i ==> f(xs[j]).Success?
  {
    if f(xs[0]).Failure? {
      assert f(xs[0]) == Failure(MapAll(f, xs).error);
    } else {
      MapAllFirstFailure(f, xs[1..]);
      var i :| 0 <= i < |xs[1..]| && f(xs[1..][i]) == Failure(MapAll(f, xs[1..]).error)
        && forall j :: 0 <= j < i ==> f(xs[1..][j]).Success?;
      assert f(xs[i + 1]) == Failure(MapAll(f, xs).error);
      assert forall j :: 1 <= j < i + 1 ==> f(xs[j]) == f(xs[1..][j - 1]);
    }
  }

  /** `experiences.map(...)`: one card per experience, in order; it throws at the first stack without ':'. */
  function RenderCards(es: seq<Entry>): Result<seq<Card>, ParseError> {
    MapAll(CardOf, es)
  }

  /** The chip names of the first experience, as its tech-stack literal lists them. */
  function SoftwareEngineerNames(): seq<string> {
    ["React", "TypeScript", "Redux", "Redux-toolkit", "Material-UI", "Node.js", "MySQL", "PostgreSQL", "MongoDB"]
  }

  lemma SoftwareEngineerSpaced()
    ensures Spaced(SoftwareEngineerNames()) == [" React", " TypeScript", " Redux", " Redux-toolkit", " Material-UI", " Node.js", " MySQL", " PostgreSQL", " MongoDB"]
  {
    assert Spaced(SoftwareEngineerNames())[0] == " React";
    assert Spaced(SoftwareEngineerNames())[1] == " TypeScript";
    assert Spaced(SoftwareEngineerNames())[2] == " Redux";
    assert Spaced(SoftwareEngineerNames())[3] == " Redux-toolkit";
    assert Spaced(SoftwareEngineerNames())[4] == " Material-UI";
    assert Spaced(SoftwareEngineerNames())[5] == " Node.js";
    assert Spaced(SoftwareEngineerNames())[6] == " MySQL";
    assert Spaced(SoftwareEngineerNames())[7] == " PostgreSQL";
    assert Spaced(SoftwareEngineerNames())[8] == " MongoDB";
  }

  lemma SoftwareEngineerJoined()
    ensures Join([" React", " TypeScript", " Redux", " Redux-toolkit", " Material-UI", " Node.js", " MySQL", " PostgreSQL", " MongoDB"], ChipSeparator) == (" React" + "," + (" TypeScript" + "," + (" Redux" + "," + (" Redux-toolkit" + "," + (" Material-UI" + "," + (" Node.js" + "," + (" MySQL" + "," + (" PostgreSQL" + "," + " MongoDB"))))))))
  {
    JoinCons(" MySQL", [" PostgreSQL", " MongoDB"], ChipSeparator);
    JoinCons(" PostgreSQL", [" MongoDB"], ChipSeparator);
  }

  lemma SoftwareEngineerShape()
    ensures SoftwareEngineerStack() == "Tech stack" + [LabelSeparator] + (" React" + "," + (" TypeScript" + "," + (" Redux" + "," + (" Redux-toolkit" + "," + (" Material-UI" + "," + (" Node.js" + "," + (" MySQL" + "," + (" PostgreSQL" + "," + " MongoDB"))))))))
  {
  }

  /** The stack literal is the names written `Tech stack: n1, n2, ...`. */
  lemma SoftwareEngineerListed()
    ensures SoftwareEngineerStack() == "Tech stack" + [LabelSeparator] + Join(Spaced(SoftwareEngineerNames()), ChipSeparator)
  {
    SoftwareEngineerSpaced();
    SoftwareEngineerJoined();
    SoftwareEngineerShape();
  }

  /** Every name is non-empty, trimmed and free of both separators. */
  lemma SoftwareEngineerNamesPlain()
    ensures forall k :: 0 <= k < |SoftwareEngineerNames()| ==>
      var n := SoftwareEngineerNames()[k];
      n != [] && IsTrimmed(n) && LabelSeparator !in n && ChipSeparator !in n
  {
  }

  /** The first experience shows its stack's nine names as chips, from "React" to "MongoDB". */
  lemma SoftwareEngineerChips()
    ensures Chips(SoftwareEngineerStack()) == Success(SoftwareEngineerNames())
  {
    SoftwareEngineerListed();
    SoftwareEngineerNamesPlain();
    ChipsOfList("Tech stack", SoftwareEngineerNames());
  }

  /** The chip names of the second experience, as its tech-stack literal lists them. */
  function FrontendDeveloperNames(): seq<string> {
    ["Vue.js", "JavaScript", "Vuex", "TailwindCSS", "Jest", "AWS", "Docker"]
  }

  lemma FrontendDeveloperSpaced()
    ensures Spaced(FrontendDeveloperNames()) == [" Vue.js", " JavaScript", " Vuex", " TailwindCSS", " Jest", " AWS", " Docker"]
  {
    assert Spaced(FrontendDeveloperNames())[0] == " Vue.js";
    assert Spaced(FrontendDeveloperNames())[1] == " JavaScript";
    assert Spaced(FrontendDeveloperNames())[2] == " Vuex";
    assert Spaced(FrontendDeveloperNames())[3] == " TailwindCSS";
    assert Spaced(FrontendDeveloperNames())[4] == " Jest";
    assert Spaced(FrontendDeveloperNames())[5] == " AWS";
    assert Spaced(FrontendDeveloperNames())[6] == " Docker";
  }

  lemma FrontendDeveloperJoined()
    ensures Join([" Vue.js", " JavaScript", " Vuex", " TailwindCSS", " Jest", " AWS", " Docker"], ChipSeparator) == (" Vue.js" + "," + (" JavaScript" + "," + (" Vuex" + "," + (" TailwindCSS" + "," + (" Jest" + "," + (" AWS" + "," + " Docker"))))))
  {
    JoinCons(" Jest", [" AWS", " Docker"], ChipSeparator);
    JoinCons(" AWS", [" Docker"], ChipSeparator);
  }

  lemma FrontendDeveloperShape()
    ensures FrontendDeveloperStack() == "Tech stack" + [LabelSeparator] + (" Vue.js" + "," + (" JavaScript" + "," + (" Vuex" + "," + (" TailwindCSS" + "," + (" Jest" + "," + (" AWS" + "," + " Docker"))))))
  {
  }

  /** The stack literal is the names written `Tech stack: n1, n2, ...`. */
  lemma FrontendDeveloperListed()
    ensures FrontendDeveloperStack() == "Tech stack" + [LabelSeparator] + Join(Spaced(FrontendDeveloperNames()), ChipSeparator)
  {
    FrontendDeveloperSpaced();
    FrontendDeveloperJoined();
    FrontendDeveloperShape();
  }

  /** Every name is non-empty, trimmed and free of both separators. */
  lemma FrontendDeveloperNamesPlain()
    ensures forall k :: 0 <= k < |FrontendDeveloperNames()| ==>
      var n := FrontendDeveloperNames()[k];
      n != [] && IsTrimmed(n) && LabelSeparator !in n && ChipSeparator !in n
  {
  }

  /** The second experience shows seven chips, from "Vue.js" to "Docker". */
  lemma FrontendDeveloperChips()
    ensures Chips(FrontendDeveloperStack()) == Success(FrontendDeveloperNames())
  {
    FrontendDeveloperListed();
    FrontendDeveloperNamesPlain();
    ChipsOfList("Tech stack", FrontendDeveloperNames());
  }

  /** A two-element map in which both elements succeed yields both results, in order. */
  lemma MapAllPair<A, B, E>(f: A -> Result<B, E>, xs: seq<A>)
    requires |xs| == 2 && f(xs[0]).Success? && f(xs[1]).Success?
    ensures MapAll(f, xs) == Success([f(xs[0]).value, f(xs[1]).value])
  {
    forall i | 0 <= i < |xs|
      ensures f(xs[i]).Success?
    {
      if i == 0 {
        assert xs[i] == xs[0];
      } else {
        assert xs[i] == xs[1];
      }
    }
    var r := MapAll(f, xs).value;
    assert r[0] == f(xs[0]).value && r[1] == f(xs[1]).value;
    assert r == [f(xs[0]).value, f(xs[1]).value];
  }

  /** The card of an experience whose tech stack parses carries exactly the parsed chips. */
  lemma CardChips(e: Entry, chips: seq<string>)
    requires Chips(e.techStack) == Success(chips)
    ensures CardOf(e).Success? && CardOf(e).value.chips == chips
  {
  }

  /** The first card shows the first stack's nine chips. */
  lemma FirstCard(es: seq<Entry>)
    requires es == Experiences()
    ensures CardOf(es[0]).Success? && CardOf(es[0]).value.chips == SoftwareEngineerNames()
  {
    SoftwareEngineerChips();
    CardChips(es[0], SoftwareEngineerNames());
  }

  /** The second card shows the second stack's seven chips. */
  lemma SecondCard(es: seq<Entry>)
    requires es == Experiences()
    ensures CardOf(es[1]).Success? && CardOf(es[1]).value.chips == FrontendDeveloperNames()
  {
    FrontendDeveloperChips();
    CardChips(es[1], FrontendDeveloperNames());
  }

  /** Two cards that render, render in order as the whole list. */
  lemma RenderPair(es: seq<Entry>, first: seq<string>, second: seq<string>)
    requires |es| == 2 && CardOf(es[0]).Success? && CardOf(es[1]).Success?
    requires CardOf(es[0]).value.chips == first && CardOf(es[1]).value.chips == second
    ensures RenderCards(es).Success? && |RenderCards(es).value| == 2
    ensures RenderCards(es).value[0].chips == first && RenderCards(es).value[1].chips == second
  {
    MapAllPair(CardOf, es);
  }

  /** Both of the site's experiences render, each card with its stack's chips. */
  lemma ExperienceCards(es: seq<Entry>)
    requires es == Experiences()
    ensures |es| == 2 && CardOf(es[0]).Success? && CardOf(es[1]).Success?
    ensures CardOf(es[0]).value.chips == SoftwareEngineerNames()
    ensures CardOf(es[1]).value.chips == FrontendDeveloperNames()
  {
    FirstCard(es);
    SecondCard(es);
  }

  /** With the site's data the component renders two cards, in order; nothing throws. */
  lemma ExperiencesRender(es: seq<Entry>)
    requires es == Experiences()
    ensures RenderCards(es).Success? && |RenderCards(es).value| == 2
    ensures RenderCards(es).value[0].chips == SoftwareEngineerNames()
    ensures RenderCards(es).value[1].chips == FrontendDeveloperNames()
  {
    ExperienceCards(es);
    RenderPair(es, SoftwareEngineerNames(), FrontendDeveloperNames());
  }
}

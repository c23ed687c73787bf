/**
 * src/components/ProjectModal.tsx: the project details dialog. With no
 * project it renders nothing; otherwise it shows the title, the duration,
 * one paragraph per description element, and the tech-stack chips.
 */
module ProjectModal {
  import opened Wrappers
  import opened Strings
  import opened TechStack

  /** The fields of a project the dialog reads. */
  datatype Project = Project(title: string, duration: string, description: seq<string>, techStack: string)

  /** What the open dialog shows. */
  datatype Modal = Modal(title: string, duration: string, paragraphs: seq<string>, chips: seq<string>)

  /**
   * The component: `Success(None)` renders nothing, `Success(Some(m))` is the
   * dialog, and `Failure` is the throw of `techStack.split(":")[1].split(",")`
   * when the tech stack has no ':'.
   */
  function RenderModal(project: Option<Project>): (r: Result<Option<Modal>, ParseError>)
    ensures project.None? ==> r == Success(None)
    ensures project.Some? ==> (r.Success? <==> LabelSeparator in project.value.techStack)
    ensures project.Some? && r.Success? ==>
      && r.value.Some?
      && Chips(project.value.techStack) == Success(r.value.value.chips)
      && r.value.value.title == project.value.title
      && r.value.value.duration == project.value.duration
  {
    match project
    case None => Success(None)
    case Some(p) =>
      match Chips(p.techStack)
      case Failure(e) => Failure(e)
      case Success(chips) => Success(Some(Modal(p.title, p.duration, p.description, chips)))
  }

  /** The description is shown one paragraph per element, in order, none added or dropped. */
  lemma ParagraphsInOrder(p: Project)
    requires LabelSeparator in p.techStack
    ensures RenderModal(Some(p)).Success? && RenderModal(Some(p)).value.Some?
    ensures var m := RenderModal(Some(p)).value.value;
      |m.paragraphs| == |p.description| && forall i :: 0 <= i < |m.paragraphs| ==> m.paragraphs[i] == p.description[i]
  {
  }

  /**
   * The dialog's chips: one more than the commas in the text between the
   * first and second ':', each trimmed and equal to its trimmed piece.
   */
  lemma ModalChips(p: Project)
    requires LabelSeparator in p.techStack
    ensures RenderModal(Some(p)).Success? && RenderModal(Some(p)).value.Some?
    ensures var chips := RenderModal(Some(p)).value.value.chips;
      var segment := Segment(p.techStack).value;
      && |chips| == Count(segment, ChipSeparator) + 1
      && forall k :: 0 <= k < |chips| ==>
           IsTrimmed(chips[k]) && chips[k] == Trim(Split(segment, ChipSeparator)[k])
  {
    ChipsSpec(p.techStack);
  }
}

/**
 * The task enumeration of the request schema (`AIRequest.task`, a literal type
 * over four names). A request whose task is not one of these is refused by the
 * schema validation before the handler runs, so the handler only ever sees a Task.
 */
module Tasks {
  import opened Wrappers

  datatype Task = CodeExplain | IdeaGenerator | ImageCaption | ToneDetector

  /** The name a task has on the wire and in every log record. */
  function Name(t: Task): string
  {
    match t
    case CodeExplain => "code_explain"
    case IdeaGenerator => "idea_generator"
    case ImageCaption => "image_caption"
    case ToneDetector => "tone_detector"
  }

  /** True of exactly the four names the schema accepts. */
  predicate IsTaskName(s: string)
  {
    exists t: Task :: Name(t) == s
  }

  /** Schema validation of the `task` field: a known name, or a refusal. */
  function Parse(s: string): (r: Option<Task>)
    ensures r.Some? ==> Name(r.value) == s
    ensures r.None? ==> !IsTaskName(s)
  {
    if s == "code_explain" then Some(CodeExplain)
    else if s == "idea_generator" then Some(IdeaGenerator)
    else if s == "image_caption" then Some(ImageCaption)
    else if s == "tone_detector" then Some(ToneDetector)
    else None
  }

  /** Validating the name of a task gives the task back. */
  lemma ParseName(t: Task)
    ensures Parse(Name(t)) == Some(t)
  {
  }
}

/**
 * The field-path and field-error records of Kubernetes' validation package
 * (field.Path, field.Error), reduced to what the policy rules observe: a
 * path is its sequence of segments from the root, and an error is its kind,
 * its path and the offending value. Rendering paths as text is not modelled.
 */
module Field {

  datatype Segment =
    | Child(name: string)   // ".name"
    | Index(i: int)         // "[i]"
    | Key(key: string)      // "[key]"

  type Path = seq<Segment>

  /** field.NewPath(name, moreNames...) */
  function NewPath(name: string, moreNames: seq<string>): (p: Path)
    ensures |p| == 1 + |moreNames|
    ensures p[0] == Child(name)
    ensures forall i :: 0 <= i < |moreNames| ==> p[i + 1] == Child(moreNames[i])
  {
    [Child(name)] + ChildSegments(moreNames)
  }

  function ChildSegments(names: seq<string>): (r: seq<Segment>)
    ensures |r| == |names|
    ensures forall i :: 0 <= i < |names| ==> r[i] == Child(names[i])
  {
    seq(|names|, i requires 0 <= i < |names| => Child(names[i]))
  }

  datatype ErrorType = ErrorTypeForbidden | ErrorTypeRequired

  /** The dynamically typed BadValue of a field.Error, for the kinds the rules store. */
  datatype Value = StrValue(s: string) | IntValue(n: int) | BoolValue(b: bool)

  datatype Error = Error(errorType: ErrorType, field: Path, badValue: Value)

  /** field.Forbidden(path, ""): the bad value starts out as the empty string. */
  function ForbiddenError(path: Path): Error
  {
    Error(ErrorTypeForbidden, path, StrValue(""))
  }

  /** field.Required(path, "") */
  function RequiredError(path: Path): Error
  {
    Error(ErrorTypeRequired, path, StrValue(""))
  }
}

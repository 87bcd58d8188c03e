/** The part of a schema-validation failure the service reads: the list of issues, each with a path and a message. */
module Zod {
  import opened Strings

  /** One step of an issue's path: an object key or an array index. */
  datatype PathItem = Key(name: string) | Index(i: nat)

  /** One validation issue. */
  datatype Issue = Issue(path: seq<PathItem>, message: string)

  /** The outcome of an operation that validates its input before acting: its result, or the issues found. */
  datatype Parsed<T> = Done(value: T) | Invalid(issues: seq<Issue>)

  /** An issue whose path is the single key `field`. */
  function FieldIssue(field: string, message: string): Issue {
    Issue([Key(field)], message)
  }

  /** How a path step prints inside `path.join('.')`. */
  function PathText(p: PathItem): string {
    match p
    case Key(n) => n
    case Index(i) => NatToString(i)
  }

  /** The printed steps of a path, in order. */
  function PathTexts(path: seq<PathItem>): (texts: seq<string>)
    ensures |texts| == |path|
    ensures forall i :: 0 <= i < |path| ==> texts[i] == PathText(path[i])
  {
    seq(|path|, i requires 0 <= i < |path| => PathText(path[i]))
  }

  /** `issue.path.join('.')`: the field name the error handler reports. */
  function FieldName(path: seq<PathItem>): string {
    Join(PathTexts(path), '.')
  }

  /** A key without a dot. */
  predicate DotFree(p: PathItem) {
    p.Key? ==> '.' !in p.name
  }

  /**
   * The field name is unambiguous: when no key contains a dot, splitting the reported
   * field name on '.' recovers every step of the path, array indices as their decimal text.
   */
  lemma FieldNameSplits(path: seq<PathItem>)
    requires |path| >= 1
    requires forall i :: 0 <= i < |path| ==> DotFree(path[i])
    ensures Split(FieldName(path), '.') == PathTexts(path)
  {
    var texts := PathTexts(path);
    forall i | 0 <= i < |texts| ensures '.' !in texts[i] {
      if path[i].Index? {
        var d := NatToString(path[i].i);
        assert forall j :: 0 <= j < |d| ==> d[j] != '.';
      }
    }
    SplitJoin(texts, '.');
  }
}

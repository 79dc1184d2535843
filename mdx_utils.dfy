/** `cx` from flowchart2/src/components/mdx/utils.ts: appends an optional extra class name. */
module MdxUtils {
  import opened Wrappers
  import opened Strings

  /** `extra ? `${base} ${extra}` : base`. */
  function Cx(base: string, extra: Option<string>): (r: string)
    ensures |r| == if IsTruthy(extra) then |base| + 1 + |extra.value| else |base|
    ensures r[..|base|] == base
    ensures IsTruthy(extra) ==> r[|base|] == ' ' && r[|base| + 1..] == extra.value
  {
    if IsTruthy(extra) then base + " " + extra.value else base
  }

  /** No extra and an empty extra both give `base` unchanged. */
  lemma CxWithoutExtra(base: string)
    ensures Cx(base, None) == base
    ensures Cx(base, Some("")) == base
  {
  }

  /** A non-empty extra is joined with one space. */
  lemma CxJoins(base: string, extra: string)
    requires extra != ""
    ensures Cx(base, Some(extra)) == base + " " + extra
  {
  }
}

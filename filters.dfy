/** The template filters of the booking pages that compute on values. */
module Filters {
  import opened Common
  import opened Strings

  /** The template values these filters see. */
  datatype Value = NoneV | Str(s: string) | Int(i: int) | Bool(b: bool)

  /** Python truthiness of a value. */
  predicate Truthy(v: Value) {
    match v
    case NoneV => false
    case Str(s) => s != ""
    case Int(i) => i != 0
    case Bool(b) => b
  }

  /** Python's `str(v)`. */
  function ToStr(v: Value): string {
    match v
    case NoneV => "None"
    case Str(s) => s
    case Int(i) => IntToString(i)
    case Bool(b) => if b then "True" else "False"
  }

  /** The `range` filter: the numbers below `n`, none when `n` is not positive. */
  function FilterRange(n: int): (r: seq<int>)
    ensures |r| == (if n > 0 then n else 0)
    ensures forall i :: 0 <= i < |r| ==> r[i] == i
  {
    seq(if n > 0 then n else 0, i => i)
  }

  /**
   * The `replace` filter in force (the last of its three definitions): a falsy
   * value, or an argument without a comma, comes back as it is; otherwise the
   * argument splits at its first comma into the text to find and the text to
   * put in its place, and the value's string form has every occurrence replaced.
   */
  function Replace(value: Value, arg: string): (r: Value)
    ensures !Truthy(value) || !Contains(arg, ",") ==> r == value
    ensures Truthy(value) && Contains(arg, ",") ==>
      exists i :: 0 <= i < |arg| && arg[i] == ',' && !Contains(arg[..i], ",") &&
        r == Str(ReplaceAll(ToStr(value), arg[..i], arg[i + 1..]))
  {
    if !Truthy(value) then value
    else
      match FindFrom(arg, ",", 0)
      case None => value
      case Some(i) =>
        assert arg[i..i + 1] == ",";
        forall j | OccursAt(arg[..i], ",", j) ensures false {
          assert arg[..i][j..j + 1] == arg[j..j + 1];
          assert OccursAt(arg, ",", j);
        }
        Str(ReplaceAll(ToStr(value), arg[..i], arg[i + 1..]))
  }

  /**
   * The `replace_underscore` filter: the same guard and the same first-comma
   * split as `replace`, so a value comes back exactly as `replace` gives it.
   */
  function ReplaceUnderscore(value: Value, arg: string): (r: Value)
    ensures !Truthy(value) || !Contains(arg, ",") ==> r == value
    ensures Truthy(value) && Contains(arg, ",") ==>
      exists i :: 0 <= i < |arg| && arg[i] == ',' && !Contains(arg[..i], ",") &&
        r == Str(ReplaceAll(ToStr(value), arg[..i], arg[i + 1..]))
  {
    Replace(value, arg)
  }

  /** A value that does not contain the text to find keeps its text (it is still stringified). */
  lemma ReplaceAbsentText(value: Value, find: string, with: string)
    requires Truthy(value) && |find| > 0 && !Contains(find, ",") && !Contains(ToStr(value), find)
    ensures Replace(value, find + "," + with) == Str(ToStr(value))
  {
    var arg := find + "," + with;
    var i := |find|;
    assert OccursAt(arg, ",", i);
    forall j | 0 <= j < i ensures !OccursAt(arg, ",", j) {
      if OccursAt(arg, ",", j) {
        assert find[j..j + 1] == arg[j..j + 1];
        assert OccursAt(find, ",", j);
      }
    }
    assert FindFrom(arg, ",", 0) == Some(i);
    assert arg[..i] == find && arg[i + 1..] == with;
    ReplaceAbsent(ToStr(value), find, with);
  }

  /** Everything after the first comma is the replacement, commas included. */
  lemma ReplacementKeepsLaterCommas()
    ensures Replace(Str("a-b"), "-,x,y") == Str("ax,yb")
  {
    var arg := "-,x,y";
    assert OccursAt(arg, ",", 1);
    assert arg[0..1] == ['-'] && arg[0..1] != ",";
    assert FindFrom(arg, ",", 0) == Some(1);
    assert arg[..1] == "-" && arg[2..] == "x,y";
    var s := "a-b";
    assert s[..1] != "-";
    assert s[1..][..1] == "-";
    assert s[1..][1..] == "b";
    assert ReplaceAll("b", "-", "x,y") == "b";
  }

  datatype SplitError = EmptySeparator

  /**
   * The `split` filter: none gives the empty list, an empty separator raises
   * (Python's ValueError), otherwise the value's string form is split.
   */
  function SplitFilter(value: Value, key: string): (r: Result<seq<string>, SplitError>)
    ensures value == NoneV ==> r == Ok([])
    ensures value != NoneV ==> (r.Err? <==> key == "")
    ensures value != NoneV && r.Ok? ==> |r.value| >= 1 && Join(r.value, key) == ToStr(value)
    ensures value != NoneV && r.Ok? ==> forall k :: 0 <= k < |r.value| ==> !Contains(r.value[k], key)
  {
    if value == NoneV then Ok([])
    else if key == "" then Err(EmptySeparator)
    else
      JoinSplit(ToStr(value), key);
      SplitPartsFree(ToStr(value), key);
      Ok(Split(ToStr(value), key))
  }

  /** A template-side container: a dictionary, or anything else. */
  datatype Container = Dict(entries: map<string, Value>) | NotDict

  /** The `get_item` filter: `dict.get(key)` on a dictionary, none on anything else or a missing key. */
  function GetItem(container: Container, key: string): (r: Value)
    ensures container.Dict? && key in container.entries ==> r == container.entries[key]
    ensures !(container.Dict? && key in container.entries) ==> r == NoneV
  {
    match container
    case NotDict => NoneV
    case Dict(entries) => if key in entries then entries[key] else NoneV
  }
}

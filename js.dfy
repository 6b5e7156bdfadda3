/** The few JavaScript built-ins the typing components rely on, over Dafny strings. */
module Js {

  /** An optional component prop: `None` stands for an omitted (undefined) prop. */
  datatype Option<+T> = None | Some(value: T) {
    /** The prop's value, or the default the component's destructuring supplies. */
    function GetOr(default: T): (r: T) {
      match this
      case Some(v) => v
      case None => default
    }
  }

  function Min(a: int, b: int): (r: int) {
    if a <= b then a else b
  }

  /** `s.slice(start, end)` for non-negative arguments: both bounds are clamped to
      the length of `s`, and a range that ends before it starts is empty. */
  function Slice(s: string, start: nat, end: nat): (r: string)
    ensures |r| == if Min(end, |s|) <= Min(start, |s|) then 0 else Min(end, |s|) - Min(start, |s|)
    ensures forall k :: 0 <= k < |r| ==> r[k] == s[start + k]
  {
    var from, to := Min(start, |s|), Min(end, |s|);
    if to <= from then "" else s[from..to]
  }

  /** `parts.join('')`: the parts concatenated in order. */
  function Join(parts: seq<string>): (r: string) {
    if parts == [] then "" else parts[0] + Join(parts[1..])
  }

  /** Joining one more part appends that part to the joined prefix. */
  lemma {:induction false} JoinAppend(parts: seq<string>, last: string)
    ensures Join(parts + [last]) == Join(parts) + last
  {
    if parts == [] {
      assert [] + [last] == [last];
      assert Join([last]) == last + Join([]);
    } else {
      assert (parts + [last])[1..] == parts[1..] + [last];
      JoinAppend(parts[1..], last);
    }
  }
}

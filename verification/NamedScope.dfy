/** `fmt_named_scope`: the scope stack, outermost scope first, written forwards or backwards. */
module NamedScope {

  const ELLIPSIS: string := "..."

  function Min(a: nat, b: nat): nat {
    if a < b then a else b
  }

  function Join(tokens: seq<string>, delimiter: string): string {
    if tokens == [] then ""
    else if |tokens| == 1 then tokens[0]
    else tokens[0] + delimiter + Join(tokens[1..], delimiter)
  }

  function Reversed(s: seq<string>): (r: seq<string>)
    ensures |r| == |s| && forall i :: 0 <= i < |s| ==> r[i] == s[|s| - 1 - i]
  {
    seq(|s|, i requires 0 <= i < |s| => s[|s| - 1 - i])
  }

  lemma {:induction false} JoinSnoc(tokens: seq<string>, last: string, delimiter: string)
    requires tokens != []
    ensures Join(tokens + [last], delimiter) == Join(tokens, delimiter) + delimiter + last
  {
    if |tokens| == 1 {
      assert tokens + [last] == [tokens[0], last];
      assert (tokens + [last])[1..] == [last];
    } else {
      JoinSnoc(tokens[1..], last, delimiter);
      assert (tokens + [last])[1..] == tokens[1..] + [last];
      assert tokens[0] + delimiter + (Join(tokens[1..], delimiter) + delimiter + last) ==
             (tokens[0] + delimiter + Join(tokens[1..], delimiter)) + delimiter + last;
    }
  }

  // The innermost `depth` scopes, after an ellipsis if that cuts something off.
  method FormatForward(scopes: seq<string>, depth: nat, delimiter: string) returns (strm: string)
    ensures depth == 0 ==> strm == ""
    ensures 0 < depth && |scopes| <= depth ==> strm == Join(scopes, delimiter)
    ensures 0 < depth < |scopes| ==> strm == "..." + delimiter + Join(scopes[|scopes| - depth..], delimiter)
  {
    strm := "";
    var scopesToIterate := Min(depth, |scopes|);
    var end := |scopes|;
    var it := end - scopesToIterate;
    if it != end {
      ghost var written: seq<string> := [];
      if it != 0 {
        strm := strm + ELLIPSIS + delimiter;
        written := [ELLIPSIS];
      }
      ghost var start := it;
      strm := strm + scopes[it];
      it := it + 1;
      assert strm == Join(written + scopes[start..it], delimiter) by {
        assert scopes[start..it] == [scopes[start]];
        assert written != [] ==> (written + [scopes[start]])[1..] == [scopes[start]];
      }
      while it != end
        invariant start < it <= end
        invariant strm == Join(written + scopes[start..it], delimiter)
      {
        JoinSnoc(written + scopes[start..it], scopes[it], delimiter);
        assert written + scopes[start..it + 1] == (written + scopes[start..it]) + [scopes[it]];
        strm := strm + delimiter + scopes[it];
        it := it + 1;
      }
      assert scopes[start..it] == scopes[start..];
      assert [] + scopes[start..] == scopes[start..];
    }
  }

  // The reverse listing is the same the other way round.
  method FormatReverse(scopes: seq<string>, depth: nat, delimiter: string) returns (strm: string)
    ensures depth == 0 ==> strm == ""
    ensures 0 < depth && |scopes| <= depth ==> strm == Join(Reversed(scopes), delimiter)
    ensures 0 < depth < |scopes| ==>
              strm == Join(Reversed(scopes[|scopes| - depth..]), delimiter) + delimiter + "..."
  {
    strm := "";
    var scopesToIterate := Min(depth, |scopes|);
    // positions count from the end of the stack
    var it, end := 0, scopesToIterate;
    if it != end {
      ghost var backwards := Reversed(scopes);
      strm := strm + scopes[|scopes| - 1 - it];
      it := it + 1;
      assert backwards[..it] == [scopes[|scopes| - 1]];
      while it != end
        invariant 0 < it <= end
        invariant strm == Join(backwards[..it], delimiter)
      {
        JoinSnoc(backwards[..it], backwards[it], delimiter);
        assert backwards[..it + 1] == backwards[..it] + [backwards[it]];
        strm := strm + delimiter + scopes[|scopes| - 1 - it];
        it := it + 1;
      }
      if it != |scopes| {
        strm := strm + delimiter + ELLIPSIS;
        assert Reversed(scopes[|scopes| - depth..]) == backwards[..it];
      } else {
        assert Reversed(scopes) == backwards[..it];
      }
    }
  }
}

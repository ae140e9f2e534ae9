/** Characters and trimming as Rust's `str` has them. */
module Text {
  /** The characters that trimming removes. */
  predicate White(c: char) {
    || '\U{9}' <= c <= '\U{D}' || c == ' ' || c == '\U{85}' || c == '\U{A0}' || c == '\U{1680}'
    || '\U{2000}' <= c <= '\U{200A}' || c == '\U{2028}' || c == '\U{2029}' || c == '\U{202F}' || c == '\U{205F}' || c == '\U{3000}'
  }

  predicate Blank(s: string) { forall i :: 0 <= i < |s| ==> White(s[i]) }

  function TrimStart(s: string): string { if s != [] && White(s[0]) then TrimStart(s[1..]) else s }

  function TrimEnd(s: string): string { if s != [] && White(s[|s| - 1]) then TrimEnd(s[..|s| - 1]) else s }

  function Trim(s: string): string { TrimEnd(TrimStart(s)) }

  /** Trimming leaves nothing exactly of a blank text. */
  lemma {:induction false} TrimsToNothing(s: string)
    ensures TrimStart(s) == [] <==> Blank(s)
    ensures Trim(s) == [] <==> Blank(s)
  {
    if s != [] && White(s[0]) {
      TrimsToNothing(s[1..]);
      assert Blank(s[1..]) ==> Blank(s) by {
        assert forall i :: 0 < i < |s| ==> s[i] == s[1..][i - 1];
      }
      assert Blank(s) ==> Blank(s[1..]);
    } else if s != [] {
      KeepsFirst(s);
    }
  }

  lemma {:induction false} KeepsFirst(s: string)
    requires s != [] && !White(s[0])
    ensures TrimEnd(s) != [] && TrimEnd(s)[0] == s[0]
  {
    if White(s[|s| - 1]) {
      KeepsFirst(s[..|s| - 1]);
    }
  }
}

/** The rewrite of the marker block in a user's instruction file. */
module GuidanceSplice {
  import opened Wrappers

  /** The two lines between which the guidance lives. */
  datatype Markers = Markers(start: string, end: string)

  const START_NAME := "!-- ai-fence-workspace-snapshots:start --"
  const END_NAME := "!-- ai-fence-workspace-snapshots:end --"
  const SHIPPED := Markers("<" + START_NAME + ">", "<" + END_NAME + ">")

  /** A marker begins with the only '<' it contains and ends with '>'. */
  predicate IsMarker(m: string) { |m| > 1 && m[0] == '<' && '<' !in m[1..] && m[|m| - 1] == '>' }

  /** What the rewrite relies on: no marker can begin inside another. */
  predicate Sound(m: Markers) {
    && IsMarker(m.start) && IsMarker(m.end)
    && exists k :: 0 <= k < |m.start| && k < |m.end| && m.start[k] != m.end[k]
  }

  lemma MakesMarker(name: string)
    requires '<' !in name
    ensures IsMarker("<" + name + ">")
  {
    assert ("<" + name + ">")[1..] == name + ">";
  }

  lemma ShippedSound()
    ensures Sound(SHIPPED)
  {
    MakesMarker(START_NAME);
    MakesMarker(END_NAME);
    assert START_NAME[33] == 's' && END_NAME[33] == 'e';
    assert SHIPPED.start[34] == START_NAME[33] && SHIPPED.end[34] == END_NAME[33];
  }

  /** The guidance is any text without '<'; the shipped one has none. */
  type Guidance = g: string | '<' !in g witness ""

  predicate OccursAt(pattern: string, text: string, i: int) {
    0 <= i <= |text| - |pattern| && text[i..i + |pattern|] == pattern
  }

  /** The first position at or after i where the pattern occurs. */
  function FindFrom(text: string, pattern: string, i: nat): (r: Option<nat>)
    requires i <= |text|
    ensures r.Some? ==> i <= r.value && OccursAt(pattern, text, r.value)
    ensures forall k :: i <= k < (if r.Some? then r.value else |text| + 1) ==> !OccursAt(pattern, text, k)
    decreases |text| - i
  {
    if OccursAt(pattern, text, i) then Some(i)
    else if i == |text| then None
    else FindFrom(text, pattern, i + 1)
  }

  function Find(text: string, pattern: string): Option<nat> { FindFrom(text, pattern, 0) }

  lemma FindIs(text: string, pattern: string, i: nat)
    requires OccursAt(pattern, text, i)
    requires forall k :: 0 <= k < i ==> !OccursAt(pattern, text, k)
    ensures Find(text, pattern) == Some(i)
  {
  }

  function Block(m: Markers, guidance: Guidance): (block: string)
    requires Sound(m)
    ensures block != [] && block[0] == '<'
  {
    m.start + "\n" + guidance + m.end
  }

  /** The new text, or the refusal to touch malformed markers. */
  function Splice(m: Markers, existing: string, guidance: Guidance): Result<string, ()>
    requires Sound(m)
  {
    match (Find(existing, m.start), Find(existing, m.end))
    case (Some(start), Some(end)) =>
      if start < end then Ok(existing[..start] + Block(m, guidance) + existing[end + |m.end|..]) else Err(())
    case (None, None) => Ok(existing + "\n\n" + Block(m, guidance) + "\n")
    case _ => Err(())
  }

  /** No marker straddles the place where a '<' follows a prefix. */
  lemma NoStraddle(a: string, rest: string, m: string, i: nat)
    requires IsMarker(m) && rest != [] && rest[0] == '<' && i < |a|
    ensures OccursAt(m, a + rest, i) <==> OccursAt(m, a, i)
  {
    var text := a + rest;
    if i + |m| <= |a| {
      assert text[i..i + |m|] == a[i..i + |m|];
    } else if i + |m| <= |text| {
      assert m[1..][|a| - i - 1] == m[|a| - i];
      assert text[i..i + |m|][|a| - i] == '<';
    }
  }

  /** Inside the block no marker begins before the closing one. */
  lemma BlockHasOneEnd(m: Markers, a: string, guidance: Guidance, c: string, i: nat)
    requires Sound(m) && |a| <= i < |a| + |m.start| + 1 + |guidance|
    ensures !OccursAt(m.end, a + Block(m, guidance) + c, i)
  {
    var text := a + Block(m, guidance) + c;
    var k := i - |a|;
    assert text[i] == Block(m, guidance)[k];
    if k == 0 {
      StartIsNoEnd(m, a, Block(m, guidance)[|m.start|..] + c);
      assert text == a + (m.start + (Block(m, guidance)[|m.start|..] + c));
    } else {
      assert k < |m.start| ==> text[i] == m.start[1..][k - 1];
      assert k > |m.start| ==> text[i] == guidance[k - |m.start| - 1];
      assert text[i] != '<';
      assert i + |m.end| <= |text| ==> text[i..i + |m.end|][0] == text[i];
    }
  }

  lemma StartIsNoEnd(m: Markers, a: string, rest: string)
    requires Sound(m)
    ensures !OccursAt(m.end, a + (m.start + rest), |a|)
  {
    var text := a + (m.start + rest);
    var k :| 0 <= k < |m.start| && k < |m.end| && m.start[k] != m.end[k];
    assert text[|a| + k] == m.start[k];
    assert |a| + |m.end| <= |text| ==> text[|a|..|a| + |m.end|][k] == text[|a| + k];
  }

  /** What a later run finds in a text with a fresh block. */
  lemma FindStartInSpliced(m: Markers, a: string, guidance: Guidance, c: string)
    requires Sound(m) && Clean(m, a)
    ensures Find(a + Block(m, guidance) + c, m.start) == Some(|a|)
  {
    var text, rest := a + Block(m, guidance) + c, Block(m, guidance) + c;
    assert text == a + rest;
    forall i | 0 <= i < |a|
      ensures !OccursAt(m.start, text, i)
    {
      NoStraddle(a, rest, m.start, i);
    }
    assert text[|a|..|a| + |m.start|] == m.start;
    FindIs(text, m.start, |a|);
  }

  lemma FindEndInSpliced(m: Markers, a: string, guidance: Guidance, c: string)
    requires Sound(m) && Clean(m, a)
    ensures Find(a + Block(m, guidance) + c, m.end) == Some(|a| + |m.start| + 1 + |guidance|)
  {
    var text, rest := a + Block(m, guidance) + c, Block(m, guidance) + c;
    var e := |a| + |m.start| + 1 + |guidance|;
    assert text == a + rest;
    forall i | 0 <= i < e
      ensures !OccursAt(m.end, text, i)
    {
      if i < |a| {
        NoStraddle(a, rest, m.end, i);
      } else {
        BlockHasOneEnd(m, a, guidance, c, i);
      }
    }
    assert text[e..e + |m.end|] == m.end;
    FindIs(text, m.end, e);
  }

  /** No marker occurs in the text. */
  predicate Clean(m: Markers, text: string) {
    forall i :: 0 <= i < |text| ==> !OccursAt(m.start, text, i) && !OccursAt(m.end, text, i)
  }

  /** What precedes the first block. */
  function Before(m: Markers, text: string): string
    requires Find(text, m.start).Some?
  {
    text[..Find(text, m.start).value]
  }

  /** What follows the first block. */
  function After(m: Markers, text: string): string
    requires Find(text, m.end).Some?
  {
    text[Find(text, m.end).value + |m.end|..]
  }

  predicate WellMarked(m: Markers, text: string) {
    && Find(text, m.start).Some? && Find(text, m.end).Some?
    && Find(text, m.start).value < Find(text, m.end).value
  }

  predicate Unmarked(m: Markers, text: string) { Find(text, m.start).None? && Find(text, m.end).None? }

  lemma BeforeIsClean(m: Markers, text: string)
    requires WellMarked(m, text)
    ensures Clean(m, Before(m, text))
  {
    var a := Before(m, text);
    forall i | 0 <= i < |a|
      ensures !OccursAt(m.start, a, i) && !OccursAt(m.end, a, i)
    {
      PrefixOccurs(text, m.start, |a|, i);
      PrefixOccurs(text, m.end, |a|, i);
    }
  }

  lemma PrefixOccurs(text: string, marker: string, n: nat, i: nat)
    requires n <= |text|
    ensures OccursAt(marker, text[..n], i) ==> OccursAt(marker, text, i)
  {
    if OccursAt(marker, text[..n], i) {
      assert text[i..i + |marker|] == text[..n][i..i + |marker|];
    }
  }

  lemma NewlinesAreClean(m: Markers, existing: string)
    requires Sound(m) && Unmarked(m, existing)
    ensures Clean(m, existing + "\n\n")
  {
    forall i | 0 <= i < |existing + "\n\n"|
      ensures !OccursAt(m.start, existing + "\n\n", i) && !OccursAt(m.end, existing + "\n\n", i)
    {
      if OccursAt(m.start, existing + "\n\n", i) {
        NewlineOccurs(existing, m.start, i);
      }
      if OccursAt(m.end, existing + "\n\n", i) {
        NewlineOccurs(existing, m.end, i);
      }
    }
  }

  lemma NewlineOccurs(existing: string, marker: string, i: nat)
    requires IsMarker(marker) && OccursAt(marker, existing + "\n\n", i)
    ensures OccursAt(marker, existing, i)
  {
    var text := existing + "\n\n";
    assert text[i..i + |marker|][|marker| - 1] == '>';
    assert text[i..i + |marker|] == existing[i..i + |marker|];
  }

  lemma SplicedParts(m: Markers, a: string, guidance: Guidance, c: string)
    requires Sound(m) && Clean(m, a)
    ensures var text := a + Block(m, guidance) + c;
            WellMarked(m, text) && Before(m, text) == a && After(m, text) == c
  {
    FindStartInSpliced(m, a, guidance, c);
    FindEndInSpliced(m, a, guidance, c);
    var text := a + Block(m, guidance) + c;
    assert text[..|a|] == a;
    assert text[|a| + |Block(m, guidance)|..] == c;
  }

  /** The rewrite succeeds exactly on texts with no marker or a closed block;
      the result has the current block, and everything outside the first block
      is kept. */
  lemma SpliceKeepsOutside(m: Markers, existing: string, guidance: Guidance)
    requires Sound(m)
    ensures Splice(m, existing, guidance).Ok? <==> WellMarked(m, existing) || Unmarked(m, existing)
    ensures Splice(m, existing, guidance).Ok? ==>
              var text := Splice(m, existing, guidance).value;
              && WellMarked(m, text)
              && text == Before(m, text) + Block(m, guidance) + After(m, text)
              && (WellMarked(m, existing) ==> Before(m, text) == Before(m, existing) && After(m, text) == After(m, existing))
              && (Unmarked(m, existing) ==> Before(m, text) == existing + "\n\n" && After(m, text) == "\n")
  {
    if WellMarked(m, existing) {
      BeforeIsClean(m, existing);
      var a, c := Before(m, existing), After(m, existing);
      assert Splice(m, existing, guidance) == Ok(a + Block(m, guidance) + c);
      SplicedParts(m, a, guidance, c);
    } else if Unmarked(m, existing) {
      NewlinesAreClean(m, existing);
      var a := existing + "\n\n";
      assert Splice(m, existing, guidance) == Ok(a + Block(m, guidance) + "\n");
      SplicedParts(m, a, guidance, "\n");
    }
  }

  /** A second run changes nothing, whatever the user's text was. */
  lemma SpliceIdempotent(m: Markers, existing: string, guidance: Guidance)
    requires Sound(m) && Splice(m, existing, guidance).Ok?
    ensures Splice(m, Splice(m, existing, guidance).value, guidance) == Splice(m, existing, guidance)
  {
    SpliceKeepsOutside(m, existing, guidance);
    var text := Splice(m, existing, guidance).value;
    assert Splice(m, text, guidance) == Ok(Before(m, text) + Block(m, guidance) + After(m, text));
  }

  lemma SplicedIsNotEmpty(m: Markers, existing: string, guidance: Guidance)
    requires Sound(m) && Splice(m, existing, guidance).Ok?
    ensures Splice(m, existing, guidance).value != ""
  {
    SpliceKeepsOutside(m, existing, guidance);
  }

  /** What stands at the path of the instruction file. */
  datatype Entry = Missing | File(text: string) | Special

  function TextOf(e: Entry): string { if e.File? then e.text else "" }

  class CodexHome {
    const markers: Markers
    var agents: Entry
    var replacements: nat  // how often the file was replaced

    constructor (agents: Entry)
      ensures markers == SHIPPED && this.agents == agents && replacements == 0
    {
      markers, this.agents, replacements := SHIPPED, agents, 0;
    }

    /** One run, under the guidance lock. A file is replaced only to change it. */
    method InstallGuidance(guidance: Guidance) returns (ok: bool)
      requires Sound(markers)
      modifies this
      ensures ok <==> !old(agents).Special? && Splice(markers, TextOf(old(agents)), guidance).Ok?
      ensures ok ==> agents == File(Splice(markers, TextOf(old(agents)), guidance).value)
      ensures !ok ==> agents == old(agents)
      ensures replacements == old(replacements) + (if agents == old(agents) then 0 else 1)
    {
      if agents.Special? {
        return false;
      }
      var existing := TextOf(agents);
      var updated := Splice(markers, existing, guidance);
      if updated.Err? {
        return false;
      }
      SplicedIsNotEmpty(markers, existing, guidance);
      if updated.value != existing {
        agents, replacements := File(updated.value), replacements + 1;
      }
      ok := true;
    }

    /** Running again replaces nothing. */
    method InstallTwice(guidance: Guidance) returns (first: bool, second: bool)
      requires Sound(markers)
      modifies this
      ensures first == second
      ensures replacements <= old(replacements) + 1
    {
      first := InstallGuidance(guidance);
      if first {
        SpliceIdempotent(markers, TextOf(old(agents)), guidance);
      }
      second := InstallGuidance(guidance);
    }
  }
}

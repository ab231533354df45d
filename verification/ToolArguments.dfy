/** Tool arguments that arrive in pieces, after `{}` placeholders (internal/infra/llmproxy/client.go). */
module ToolArguments {
  const EMPTY_OBJECT := "{}"

  // ----- White space around a text, as Unicode defines it

  predicate IsSpace(c: char) {
    '\t' <= c <= '\r' || c == ' ' || c == '\U{85}' || c == '\U{A0}' || c == '\U{1680}' || '\U{2000}' <= c <= '\U{200A}'
    || c == '\U{2028}' || c == '\U{2029}' || c == '\U{202F}' || c == '\U{205F}' || c == '\U{3000}'
  }

  function TrimLeft(s: string): (r: string)
    ensures |r| <= |s| && (r != "" ==> !IsSpace(r[0]))
  {
    if s != "" && IsSpace(s[0]) then TrimLeft(s[1..]) else s
  }

  function TrimRight(s: string): (r: string)
    ensures r <= s
    ensures s != "" && !IsSpace(s[0]) ==> r != ""
  {
    if s != "" && IsSpace(s[|s| - 1]) then TrimRight(s[..|s| - 1]) else s
  }

  function Trim(s: string): (r: string)
    ensures |r| <= |s|
  {
    TrimRight(TrimLeft(s))
  }

  predicate IsPlaceholder(delta: string) {
    Trim(delta) == EMPTY_OBJECT
  }

  // ----- Accumulating

  /** The arguments so far, and what was passed on of the deltas so far. */
  datatype Accumulated = Accumulated(arguments: string, forwarded: string)

  const NOTHING := Accumulated("", "")

  function Appended(a: Accumulated, delta: string): Accumulated {
    var current := Trim(a.arguments);
    if current == EMPTY_OBJECT then
      if IsPlaceholder(delta) then a else Accumulated(delta, a.forwarded + delta)
    else
      Accumulated(a.arguments + delta, a.forwarded + if current == "" && IsPlaceholder(delta) then "" else delta)
  }

  method AppendToolArguments(arguments: string, delta: string) returns (arguments': string, forward: string)
    ensures forall forwarded :: Appended(Accumulated(arguments, forwarded), delta) == Accumulated(arguments', forwarded + forward)
  {
    var current := Trim(arguments);
    if current == EMPTY_OBJECT {
      if Trim(delta) == EMPTY_OBJECT {
        assert forall forwarded: string :: forwarded + "" == forwarded;
        return arguments, "";
      }
      return delta, delta;
    }
    arguments' := arguments + delta;
    forward := if current == "" && Trim(delta) == EMPTY_OBJECT then "" else delta;
  }

  /** What is forwarded of a delta does not depend on what was forwarded before. */
  lemma ForwardedIsAppended(a: Accumulated, delta: string)
    ensures var alone := Appended(Accumulated(a.arguments, ""), delta);
            Appended(a, delta) == Accumulated(alone.arguments, a.forwarded + alone.forwarded)
  {
    assert "" + delta == delta && a.forwarded + "" == a.forwarded;
  }

  function AppendedAll(deltas: seq<string>): Accumulated {
    if deltas == [] then NOTHING else Appended(AppendedAll(deltas[..|deltas| - 1]), deltas[|deltas| - 1])
  }

  function Concat(chunks: seq<string>): string {
    if chunks == [] then "" else Concat(chunks[..|chunks| - 1]) + chunks[|chunks| - 1]
  }

  predicate Placeholders(deltas: seq<string>) {
    forall i :: 0 <= i < |deltas| ==> IsPlaceholder(deltas[i])
  }

  /** The final arguments and the forwarded deltas are both the text. */
  predicate Faithful(placeholders: seq<string>, chunks: seq<string>, text: string) {
    AppendedAll(placeholders + chunks) == Accumulated(text, text)
  }

  /** What a text can be followed by without being taken for a placeholder, or the next chunk for one. */
  predicate Continues(text: string, next: string) {
    !IsPlaceholder(text) && !(Trim(text) == "" && IsPlaceholder(next))
  }

  /** No cut makes part of the text look like a placeholder. */
  predicate Clean(chunks: seq<string>) {
    |chunks| <= 1
    || (var front := chunks[..|chunks| - 1]; Clean(front) && Continues(Concat(front), chunks[|chunks| - 1]))
  }

  /** With placeholders only, nothing is forwarded and the arguments stay the empty object. */
  lemma {:induction false} PlaceholdersOnly(deltas: seq<string>)
    requires Placeholders(deltas)
    ensures AppendedAll(deltas).forwarded == ""
    ensures deltas != [] ==> IsPlaceholder(AppendedAll(deltas).arguments)
    ensures deltas == [] ==> AppendedAll(deltas) == NOTHING
  {
    if deltas != [] {
      var front, last := deltas[..|deltas| - 1], deltas[|deltas| - 1];
      PlaceholdersOnly(front);
      assert IsPlaceholder(last) && Trim("") == "" && "" + last == last;
    }
  }

  lemma TrimLeftConcat(a: string, b: string)
    ensures TrimLeft(a + b) == if TrimLeft(a) == "" then TrimLeft(b) else TrimLeft(a) + b
  {
    if a == "" {
      assert a + b == b;
    } else {
      assert (a + b)[1..] == a[1..] + b;
    }
  }

  predicate IsBlank(delta: string) {
    Trim(delta) == ""
  }

  /** Placeholders and deltas of nothing but white space. */
  predicate SaysNothing(deltas: seq<string>) {
    forall i :: 0 <= i < |deltas| ==> IsPlaceholder(deltas[i]) || IsBlank(deltas[i])
  }

  lemma BlankThen(blank: string, delta: string)
    requires IsBlank(blank)
    ensures Trim(blank + delta) == Trim(delta)
  {
    TrimLeftConcat(blank, delta);
  }

  /** When nothing but placeholders and white space arrives, the arguments end as the empty object exactly when
      the last delta is a placeholder; otherwise they end as white space. */
  lemma {:induction false} EmptyObjectIffLast(deltas: seq<string>)
    requires SaysNothing(deltas)
    ensures var last := deltas != [] && IsPlaceholder(deltas[|deltas| - 1]);
            && (IsPlaceholder(AppendedAll(deltas).arguments) <==> last)
            && (IsBlank(AppendedAll(deltas).arguments) <==> !last)
  {
    assert Trim("") == "";
    if deltas != [] {
      var front, last := deltas[..|deltas| - 1], deltas[|deltas| - 1];
      EmptyObjectIffLast(front);
      assert IsPlaceholder(last) || IsBlank(last);
      var before := AppendedAll(front).arguments;
      if IsBlank(before) {
        BlankThen(before, last);
      }
    }
  }

  lemma EmptyObjectAfter(placeholders: seq<string>, deltas: seq<string>)
    requires placeholders != [] && Placeholders(placeholders) && SaysNothing(deltas)
    ensures var arguments := AppendedAll(placeholders + deltas).arguments;
            && (IsPlaceholder(arguments) <==> deltas == [] || IsPlaceholder(deltas[|deltas| - 1]))
            && (IsBlank(arguments) <==> deltas != [] && IsBlank(deltas[|deltas| - 1]))
  {
    var all := placeholders + deltas;
    forall i | 0 <= i < |all|
      ensures IsPlaceholder(all[i]) || IsBlank(all[i])
    {
      assert i >= |placeholders| ==> all[i] == deltas[i - |placeholders|];
    }
    EmptyObjectIffLast(all);
    var last := all[|all| - 1];
    assert last == if deltas == [] then placeholders[|placeholders| - 1] else deltas[|deltas| - 1];
    assert IsPlaceholder(last) || IsBlank(last);
  }

  lemma FirstChunk(placeholders: seq<string>, chunk: string)
    requires Placeholders(placeholders) && !IsPlaceholder(chunk)
    ensures AppendedAll(placeholders + [chunk]) == Accumulated(chunk, chunk)
  {
    PlaceholdersOnly(placeholders);
    assert (placeholders + [chunk])[..|placeholders|] == placeholders;
  }

  /** After a cut that is not clean, the arguments or the forwarded text stay too short for good. */
  lemma {:induction false} CleanOrShort(placeholders: seq<string>, chunks: seq<string>)
    requires Placeholders(placeholders) && chunks != [] && !IsPlaceholder(chunks[0])
    ensures var a, text := AppendedAll(placeholders + chunks), Concat(chunks);
            && |a.arguments| <= |text| && |a.forwarded| <= |text|
            && (Clean(chunks) ==> a == Accumulated(text, text))
            && (!Clean(chunks) ==> |a.arguments| < |text| || |a.forwarded| < |text|)
  {
    var front, last := chunks[..|chunks| - 1], chunks[|chunks| - 1];
    assert (placeholders + chunks)[..|placeholders + chunks| - 1] == placeholders + front;
    if front == [] {
      assert placeholders + chunks == placeholders + [last];
      FirstChunk(placeholders, last);
      assert "" + last == last;
    } else {
      assert front[0] == chunks[0];
      CleanOrShort(placeholders, front);
    }
  }

  /** Exactly the clean cuts of a text leave the arguments and the forwarded deltas equal to it, whatever
      placeholders came before. */
  lemma FaithfulIffClean(placeholders: seq<string>, chunks: seq<string>)
    requires Placeholders(placeholders) && chunks != [] && !IsPlaceholder(chunks[0])
    ensures Faithful(placeholders, chunks, Concat(chunks)) <==> Clean(chunks)
  {
    CleanOrShort(placeholders, chunks);
  }

  // ----- Texts that survive every cut

  predicate StartsEmpty(text: string) {
    EMPTY_OBJECT <= TrimLeft(text)
  }

  lemma PlaceholderStartsEmpty(text: string, next: string)
    ensures IsPlaceholder(text) ==> StartsEmpty(text)
    ensures StartsEmpty(text) ==> StartsEmpty(text + next)
    ensures Trim(text) == "" && IsPlaceholder(next) ==> StartsEmpty(text + next)
  {
    TrimLeftConcat(text, next);
  }

  lemma {:induction false} CleanUnlessEmpty(chunks: seq<string>)
    requires chunks != [] && !StartsEmpty(Concat(chunks))
    ensures Clean(chunks) && !IsPlaceholder(chunks[0])
  {
    var front, last := chunks[..|chunks| - 1], chunks[|chunks| - 1];
    PlaceholderStartsEmpty(Concat(front), last);
    if front == [] {
      assert Concat(chunks) == last;
      PlaceholderStartsEmpty(last, "");
    } else {
      CleanUnlessEmpty(front);
      assert front[0] == chunks[0];
    }
  }

  /** Where the empty object at the start of a text ends. */
  lemma {:induction false} EmptyObjectEnds(text: string) returns (cut: nat)
    requires StartsEmpty(text)
    ensures cut <= |text| && IsPlaceholder(text[..cut])
  {
    if IsSpace(text[0]) {
      var c := EmptyObjectEnds(text[1..]);
      cut := c + 1;
      assert text[..cut][1..] == text[1..][..c];
    } else {
      cut := 2;
      assert text[..2] == EMPTY_OBJECT;
      assert TrimLeft(EMPTY_OBJECT) == EMPTY_OBJECT;
    }
  }

  ghost predicate SurvivesEveryCut(text: string) {
    forall placeholders, chunks :: Placeholders(placeholders) && chunks != [] && Concat(chunks) == text
                                   ==> Faithful(placeholders, chunks, text)
  }

  lemma TwoChunks(a: string, b: string)
    ensures Concat([a, b]) == a + b
    ensures AppendedAll([a, b]) == Appended(Appended(NOTHING, a), b)
  {
    assert [a, b][..1] == [a] && [a][..0] == [];
    assert Concat([a]) == a;
    assert AppendedAll([a]) == Appended(NOTHING, a);
  }

  lemma LossAfterPlaceholder(a: string, b: string)
    requires IsPlaceholder(a)
    ensures AppendedAll([a, b]) != Accumulated(a + b, a + b)
  {
    TwoChunks(a, b);
    PlaceholderAppended(a);
    var r := Appended(Accumulated(a, ""), b);
    assert |r.arguments| < |a + b| || |r.forwarded| < |a + b|;
  }

  lemma UnfaithfulCut(placeholders: seq<string>, chunks: seq<string>, text: string)
    requires Placeholders(placeholders) && chunks != [] && Concat(chunks) == text && !Faithful(placeholders, chunks, text)
    ensures !SurvivesEveryCut(text)
  {
  }

  lemma CutLosesText(a: string, b: string)
    requires IsPlaceholder(a)
    ensures !SurvivesEveryCut(a + b)
  {
    var none: seq<string>, chunks := [], [a, b];
    LossAfterPlaceholder(a, b);
    TwoChunks(a, b);
    assert none + chunks == chunks;
    UnfaithfulCut(none, chunks, a + b);
  }

  lemma PlaceholderAppended(a: string)
    requires IsPlaceholder(a)
    ensures Appended(NOTHING, a) == Accumulated(a, "") && a != ""
  {
    assert Trim("") == "" && "" + a == a;
  }

  /** Exactly the texts that do not start with an empty object reach the client and the final response
      unharmed however they are cut and whatever placeholders precede them. */
  lemma SurvivesUnlessEmpty(text: string)
    ensures SurvivesEveryCut(text) <==> !StartsEmpty(text)
  {
    if StartsEmpty(text) {
      var cut := EmptyObjectEnds(text);
      CutLosesText(text[..cut], text[cut..]);
      assert text[..cut] + text[cut..] == text;
    } else {
      forall placeholders, chunks | Placeholders(placeholders) && chunks != [] && Concat(chunks) == text
        ensures Faithful(placeholders, chunks, text)
      {
        WholeAfterPlaceholders(placeholders, chunks);
      }
    }
  }

  lemma WholeAfterPlaceholders(placeholders: seq<string>, chunks: seq<string>)
    requires Placeholders(placeholders) && chunks != [] && !StartsEmpty(Concat(chunks))
    ensures AppendedAll(placeholders + chunks) == Accumulated(Concat(chunks), Concat(chunks))
  {
    CleanUnlessEmpty(chunks);
    FaithfulIffClean(placeholders, chunks);
  }

  /** An empty delta after a placeholder erases it. */
  lemma EmptyDeltaErases(placeholders: seq<string>)
    requires Placeholders(placeholders)
    ensures AppendedAll(placeholders + [""]) == NOTHING
  {
    assert Trim("") == "";
    FirstChunk(placeholders, "");
  }
}

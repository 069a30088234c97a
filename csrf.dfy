/** The CSRF token of the authorization route and the OAuth 2.0 `state`
    parameter that binds it to the node id (section 10.12 of RFC 6749):
    the token is base64 text with `/` rewritten to `-` and `+` to `_`, the
    state is `id ":" token`, and the callback reads it back with the
    JavaScript `split(':')`. */
module Csrf {
  import opened JsValues
  import Base64

  /** `crypto.randomBytes(18)`. */
  const TokenBytes: nat := 18

  const Separator: char := ':'

  /** `s.replace(/<from>/g, to)` for a single character. */
  function ReplaceAll(s: string, from: char, to: char): (r: string)
    ensures |r| == |s|
    ensures forall i :: 0 <= i < |s| ==> r[i] == (if s[i] == from then to else s[i])
  {
    if s == [] then [] else [if s[0] == from then to else s[0]] + ReplaceAll(s[1..], from, to)
  }

  /** The rewriting applied to the base64 text. It swaps the two symbols the
      other way round from base64url (section 5 of RFC 4648), which maps `+`
      to `-` and `/` to `_`. */
  function Rewrite(b64: string): (r: string)
    ensures |r| == |b64|
    ensures forall i :: 0 <= i < |b64| ==>
      r[i] == (if b64[i] == '/' then '-' else if b64[i] == '+' then '_' else b64[i])
  {
    ReplaceAll(ReplaceAll(b64, '/', '-'), '+', '_')
  }

  /** The symbols a token can contain. */
  predicate IsTokenChar(c: char) {
    ('A' <= c <= 'Z') || ('a' <= c <= 'z') || ('0' <= c <= '9') || c == '-' || c == '_'
  }

  /** The token made from the random bytes. */
  function Token(random: seq<Base64.Byte>): (r: string)
    requires |random| == TokenBytes
    ensures |r| == 24
    ensures forall i :: 0 <= i < |r| ==> IsTokenChar(r[i])
    ensures Separator !in r && '/' !in r && '+' !in r && Base64.Pad !in r
  {
    Rewrite(Base64.Encode(random))
  }

  /** Undoes Rewrite on text that has no `-` or `_` of its own. */
  function Restore(token: string): string {
    ReplaceAll(ReplaceAll(token, '_', '+'), '-', '/')
  }

  lemma RestoreRewrite(b64: string)
    requires forall i :: 0 <= i < |b64| ==> Base64.IsAlphabetChar(b64[i])
    ensures Restore(Rewrite(b64)) == b64
  {
  }

  /** Distinct random draws give distinct tokens: the rewriting loses nothing. */
  lemma TokenInjective(a: seq<Base64.Byte>, b: seq<Base64.Byte>)
    requires |a| == TokenBytes && |b| == TokenBytes
    requires Token(a) == Token(b)
    ensures a == b
  {
    RestoreRewrite(Base64.Encode(a));
    RestoreRewrite(Base64.Encode(b));
    Base64.EncodeInjective(a, b);
  }

  /** The state parameter `${node_id}:${csrf_token}`. */
  function FormatState(owner: string, token: string): (r: string)
    ensures |r| == |owner| + 1 + |token|
    ensures owner <= r && r[|owner|] == Separator && r[|owner| + 1..] == token
  {
    owner + [Separator] + token
  }

  /** The pieces joined back with the separator: the inverse of Split. */
  function Join(pieces: seq<string>, sep: char): string
    requires |pieces| >= 1
  {
    if |pieces| == 1 then pieces[0] else pieces[0] + [sep] + Join(pieces[1..], sep)
  }

  /** JavaScript's `s.split(sep)` with a one-character separator: the pieces
      between separators, one more than there are separators, so `""` gives
      `[""]`. */
  function Split(s: string, sep: char): (r: seq<string>)
    ensures |r| >= 1
    ensures forall i :: 0 <= i < |r| ==> sep !in r[i]
    ensures Join(r, sep) == s
  {
    if s == [] then [[]]
    else if s[0] == sep then [[]] + Split(s[1..], sep)
    else
      var rest := Split(s[1..], sep);
      [[s[0]] + rest[0]] + rest[1..]
  }

  /** Split undoes Join when no piece holds the separator. */
  lemma {:induction false} SplitJoin(pieces: seq<string>, sep: char)
    requires |pieces| >= 1
    requires forall i :: 0 <= i < |pieces| ==> sep !in pieces[i]
    ensures Split(Join(pieces, sep), sep) == pieces
    decreases |pieces|, |pieces[0]|
  {
    var p := pieces[0];
    if p == [] {
      if |pieces| > 1 {
        SplitJoin(pieces[1..], sep);
        assert Join(pieces, sep) == [sep] + Join(pieces[1..], sep);
      }
    } else {
      var shorter := [p[1..]] + pieces[1..];
      assert forall i :: 0 <= i < |shorter| ==> sep !in shorter[i];
      SplitJoin(shorter, sep);
      assert Join(pieces, sep) == [p[0]] + Join(shorter, sep);
      assert [p[0]] + shorter[0] == p;
      assert shorter[1..] == pieces[1..];
      assert pieces == [p] + pieces[1..];
    }
  }

  /** What the callback keeps of `state.split(':')`: element `[0]` as the
      node id, element `[1]` as the presented token (`undefined` when the
      state has no separator). Later elements are dropped. */
  datatype ParsedState = ParsedState(owner: string, presented: Option<string>)

  function ParseState(state: string): (r: ParsedState)
    ensures r.owner <= state && Separator !in r.owner
    ensures |r.owner| < |state| ==> state[|r.owner|] == Separator
    ensures r.presented.None? <==> Separator !in state
    ensures r.presented.Some? ==>
      var token := r.presented.value;
      var through := |r.owner| + 1 + |token|;
      && Separator !in token
      && r.owner + [Separator] + token <= state
      && (through < |state| ==> state[through] == Separator)
  {
    var pieces := Split(state, Separator);
    FirstPiece(pieces, Separator);
    SecondPiece(pieces, Separator);
    ParsedState(pieces[0], if |pieces| > 1 then Some(pieces[1]) else None)
  }

  /** The join of several pieces starts with the first and a separator. */
  lemma FirstPiece(pieces: seq<string>, sep: char)
    requires |pieces| >= 1
    requires forall i :: 0 <= i < |pieces| ==> sep !in pieces[i]
    ensures pieces[0] <= Join(pieces, sep)
    ensures |pieces| > 1 ==> |pieces[0]| < |Join(pieces, sep)| && Join(pieces, sep)[|pieces[0]|] == sep
    ensures |pieces| == 1 <==> sep !in Join(pieces, sep)
  {
  }

  /** The join of two or more pieces starts with the first two and a
      separator between them, followed by another separator if more follow. */
  lemma SecondPiece(pieces: seq<string>, sep: char)
    requires |pieces| >= 1
    requires forall i :: 0 <= i < |pieces| ==> sep !in pieces[i]
    ensures |pieces| >= 2 ==> pieces[0] + [sep] + pieces[1] <= Join(pieces, sep)
    ensures |pieces| > 2 ==>
      var n := |pieces[0]| + 1 + |pieces[1]|;
      n < |Join(pieces, sep)| && Join(pieces, sep)[n] == sep
  {
    if |pieces| >= 2 {
      var rest := pieces[1..];
      FirstPiece(rest, sep);
      assert Join(pieces, sep) == pieces[0] + [sep] + Join(rest, sep);
    }
  }

  /** The callback recovers the node id and the token the route put into
      the state, provided the id has no `:` (the token never has one). */
  lemma ParseFormatState(owner: string, token: string)
    requires Separator !in owner && Separator !in token
    ensures ParseState(FormatState(owner, token)) == ParsedState(owner, Some(token))
  {
    SplitJoin([owner, token], Separator);
    assert Join([owner, token], Separator) == FormatState(owner, token);
  }

  /** An id containing `:` is cut short at its first `:`, so the callback
      looks up a different key. */
  lemma ParseStateColonInOwner(owner: string, token: string)
    requires Separator in owner
    ensures ParseState(FormatState(owner, token)).owner != owner
  {
  }
}

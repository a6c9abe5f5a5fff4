/**
 * PairsSelector: the block-editor control that edits the comma-separated
 * pair list of the Ticker block as a list of tokens, keeping only tokens
 * that name a known pair.
 */
module PairsSelector {
  import opened Wrappers
  import opened Strings

  /** The pieces that survive `.filter(Boolean)`: the non-empty ones, in order. */
  function NonEmpty(parts: seq<string>): (r: seq<string>)
    ensures |r| <= |parts|
    ensures forall t :: t in r <==> t in parts && t != ""
  {
    if parts == [] then []
    else if parts[0] == "" then NonEmpty(parts[1..])
    else [parts[0]] + NonEmpty(parts[1..])
  }

  /** A token as the control shows it: not empty, no comma, no white space at either end. */
  predicate Clean(t: string) {
    t != "" && ',' !in t && !IsJsSpace(t[0]) && !IsJsSpace(t[|t| - 1])
  }

  /**
   * The stored string as tokens: nothing when the value is missing or empty
   * (falsy); otherwise split at ',', trimmed, and empty pieces dropped.
   */
  function Tokens(value: Option<string>): (tokens: seq<string>)
    ensures value.None? || value == Some("") ==> tokens == []
    ensures forall t :: t in tokens ==> Clean(t)
  {
    if value.None? || value.value == "" then []
    else
      var parts := Explode(value.value, ',');
      NonEmpty(TrimAll(parts))
  }

  /** `.map((s) => s.trim())` */
  function TrimAll(parts: seq<string>): (r: seq<string>)
    ensures |r| == |parts|
    ensures forall i :: 0 <= i < |parts| ==> r[i] == Trim(parts[i], IsJsSpace)
  {
    seq(|parts|, i requires 0 <= i < |parts| => Trim(parts[i], IsJsSpace))
  }

  /** `t` names one of `pairs`, ignoring case. */
  predicate Known(t: string, pairs: seq<string>) {
    exists p :: p in pairs && ToUpper(p) == ToUpper(t)
  }

  /** The tokens that name a known pair, in their order and with their own casing. */
  function Valid(newTokens: seq<string>, pairs: seq<string>): (r: seq<string>)
    ensures |r| <= |newTokens|
    ensures forall t :: t in r <==> t in newTokens && Known(t, pairs)
  {
    if newTokens == [] then []
    else
      var rest := Valid(newTokens[1..], pairs);
      if Known(newTokens[0], pairs) then [newTokens[0]] + rest else rest
  }

  /** handleChange(newTokens): the valid tokens joined with ','. */
  function HandleChange(newTokens: seq<string>, pairs: seq<string>): (stored: string)
    ensures Valid(newTokens, pairs) == [] ==> stored == ""
  {
    Join(Valid(newTokens, pairs), ',')
  }

  /** Validation keeps the tokens' order: it works token by token. */
  lemma {:induction false} ValidAppend(a: seq<string>, b: seq<string>, pairs: seq<string>)
    ensures Valid(a + b, pairs) == Valid(a, pairs) + Valid(b, pairs)
  {
    if a != [] {
      assert (a + b)[1..] == a[1..] + b;
      ValidAppend(a[1..], b, pairs);
    } else {
      assert a + b == b;
    }
  }

  /** Validating again changes nothing. */
  lemma {:induction false} ValidIdempotent(newTokens: seq<string>, pairs: seq<string>)
    ensures Valid(Valid(newTokens, pairs), pairs) == Valid(newTokens, pairs)
  {
    if newTokens != [] {
      ValidIdempotent(newTokens[1..], pairs);
    }
  }

  /** Non-empty pieces pass the filter unchanged. */
  lemma {:induction false} NonEmptyKeepsAll(parts: seq<string>)
    requires forall i :: 0 <= i < |parts| ==> parts[i] != ""
    ensures NonEmpty(parts) == parts
  {
    if parts != [] {
      NonEmptyKeepsAll(parts[1..]);
    }
  }

  /** Clean tokens joined with ',' read back as the same tokens. */
  lemma TokensOfJoin(tokens: seq<string>)
    requires forall i :: 0 <= i < |tokens| ==> Clean(tokens[i])
    ensures Tokens(Some(Join(tokens, ','))) == tokens
  {
    if tokens != [] {
      var s := Join(tokens, ',');
      JoinNotEmpty(tokens);
      ExplodeJoin(tokens, ',');
      TrimAllClean(tokens);
      NonEmptyKeepsAll(tokens);
    }
  }

  /** Trimming clean tokens changes none of them. */
  lemma TrimAllClean(tokens: seq<string>)
    requires forall i :: 0 <= i < |tokens| ==> Clean(tokens[i])
    ensures TrimAll(tokens) == tokens
  {
    forall i | 0 <= i < |tokens| ensures TrimAll(tokens)[i] == tokens[i] {
      TrimUntrimmed(tokens[i], IsJsSpace);
    }
  }

  /** A join whose first part is not empty is not empty. */
  lemma JoinNotEmpty(parts: seq<string>)
    requires parts != [] && parts[0] != ""
    ensures Join(parts, ',') != ""
  {
    if |parts| > 1 {
      assert |Join(parts, ',')| >= |parts[0]|;
    }
  }

  /**
   * What handleChange stores reads back as exactly the valid tokens, provided
   * every valid token is clean (a known pair holds no comma or edge space).
   */
  lemma StoredReadsBack(newTokens: seq<string>, pairs: seq<string>)
    requires forall t :: t in newTokens && Known(t, pairs) ==> Clean(t)
    ensures Tokens(Some(HandleChange(newTokens, pairs))) == Valid(newTokens, pairs)
  {
    var valid := Valid(newTokens, pairs);
    assert forall i :: 0 <= i < |valid| ==> valid[i] in valid;
    TokensOfJoin(valid);
  }
}

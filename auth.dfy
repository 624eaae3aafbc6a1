/**
 * The bearer-token check that guards every protected route (`require_auth`).
 *
 * The checks run in a fixed order: a missing header, then a header that is
 * not `Bearer <token>`, then a server without a configured token, then the
 * token comparison. Only `Valid` lets the wrapped handler run.
 */
module Auth {
  import opened Wrappers
  import opened Text

  datatype Outcome = Missing | Malformed | ServerMisconfigured | Invalid | Valid

  /** Python's `not value` for an optional string: absent or empty. */
  predicate Blank(value: Option<string>) {
    value.None? || value.value == ""
  }

  /**
   * The decision `require_auth` takes on the `Authorization` header and the
   * configured token. Only a blank header is missing, and an accepted header
   * splits into two words, the second being the configured, non-empty token.
   */
  function Authenticate(header: Option<string>, expected: Option<string>): (r: Outcome)
    ensures r == Missing <==> Blank(header)
    ensures r == Valid ==>
      && header.Some? && expected.Some? && expected.value != ""
      && |Split(header.value)| == 2 && Split(header.value)[1] == expected.value
  {
    if Blank(header) then Missing
    else
      var parts := Split(header.value);
      if |parts| != 2 || Lower(parts[0]) != "bearer" then Malformed
      else if Blank(expected) then ServerMisconfigured
      else if parts[1] != expected.value then Invalid
      else Valid
  }

  /** The error response `require_auth` returns instead of running the handler. */
  datatype Rejection = Rejection(status: int, message: string)

  function Reject(outcome: Outcome): (r: Rejection)
    requires outcome != Valid
    ensures r.status == 500 <==> outcome == ServerMisconfigured
    ensures r.status == 401 <==> outcome != ServerMisconfigured
  {
    match outcome
    case Missing => Rejection(401, "Missing authorization header")
    case Malformed => Rejection(401, "Invalid authorization format. Use: Bearer <token>")
    case ServerMisconfigured => Rejection(500, "Server configuration error")
    case Invalid => Rejection(401, "Invalid authorization token")
  }

  /** `scheme` is "bearer" in any mixture of upper and lower case. */
  predicate IsBearerScheme(scheme: string) {
    |scheme| == 6 && forall i :: 0 <= i < 6 ==> scheme[i] == "bearer"[i] || scheme[i] == "BEARER"[i]
  }

  /**
   * The header presents `token`: optional whitespace, the scheme, at least one
   * whitespace character, the token, optional whitespace, and nothing else.
   */
  ghost predicate PresentsToken(header: string, token: string) {
    IsWord(token) &&
    exists scheme, gaps ::
      IsBearerScheme(scheme) && Separates(gaps, 2) && Interleave(gaps, [scheme, token]) == header
  }

  /** The header has the `Bearer <token>` form for some token. */
  ghost predicate WellFormed(header: string) {
    exists token :: PresentsToken(header, token)
  }

  /** The shape test of `require_auth` agrees with the declarative form above. */
  lemma PresentsTokenIff(header: string, token: string)
    ensures PresentsToken(header, token) <==>
      var parts := Split(header); |parts| == 2 && Lower(parts[0]) == "bearer" && parts[1] == token
  {
    var parts := Split(header);
    if PresentsToken(header, token) {
      var scheme, gaps :| IsBearerScheme(scheme) && Separates(gaps, 2) && Interleave(gaps, [scheme, token]) == header;
      PresentedTokenSplits(header, scheme, token, gaps);
    }
    if |parts| == 2 && Lower(parts[0]) == "bearer" && parts[1] == token {
      SplitTokenPresented(header);
    }
  }

  lemma PresentedTokenSplits(header: string, scheme: string, token: string, gaps: seq<string>)
    requires IsWord(token) && IsBearerScheme(scheme) && Separates(gaps, 2)
    requires Interleave(gaps, [scheme, token]) == header
    ensures Split(header) == [scheme, token] && Lower(scheme) == "bearer"
  {
    BearerSchemeIsWord(scheme);
    SplitInterleave(gaps, [scheme, token]);
    LowerIsBearer(scheme);
  }

  lemma BearerSchemeIsWord(scheme: string)
    requires IsBearerScheme(scheme)
    ensures IsWord(scheme)
  {
    forall i | 0 <= i < 6 ensures !IsSpace(scheme[i]) {
      assert scheme[i] == "bearer"[i] || scheme[i] == "BEARER"[i];
    }
  }

  lemma SplitTokenPresented(header: string)
    requires |Split(header)| == 2 && Lower(Split(header)[0]) == "bearer"
    ensures PresentsToken(header, Split(header)[1])
  {
    var parts := Split(header);
    var gaps := Gaps(header);
    LowerIsBearer(parts[0]);
    assert parts == [parts[0], parts[1]];
    assert IsWord(parts[1]);
    assert IsBearerScheme(parts[0]) && Separates(gaps, 2) && Interleave(gaps, [parts[0], parts[1]]) == header;
  }

  lemma WellFormedIff(header: string)
    ensures WellFormed(header) <==> var parts := Split(header); |parts| == 2 && Lower(parts[0]) == "bearer"
  {
    var parts := Split(header);
    if WellFormed(header) {
      var token :| PresentsToken(header, token);
      PresentsTokenIff(header, token);
    }
    if |parts| == 2 && Lower(parts[0]) == "bearer" {
      PresentsTokenIff(header, parts[1]);
    }
  }

  /** An absent or empty header, and only that, is reported as missing, whatever the configuration. */
  lemma MissingHeader(header: Option<string>, expected: Option<string>)
    ensures Authenticate(header, expected) == Missing <==> Blank(header)
    ensures Blank(header) ==> Reject(Authenticate(header, expected)) == Rejection(401, "Missing authorization header")
  {
  }

  /** A present header that does not have the `Bearer <token>` form is malformed, whatever the configuration. */
  lemma MalformedHeader(header: Option<string>, expected: Option<string>)
    ensures Authenticate(header, expected) == Malformed <==> !Blank(header) && !WellFormed(header.value)
  {
    if header.Some? {
      WellFormedIff(header.value);
    }
  }

  /** A well-formed header meets a server without a token: a server fault (500), never a 401. */
  lemma MisconfiguredServer(header: Option<string>, expected: Option<string>)
    ensures Authenticate(header, expected) == ServerMisconfigured <==>
      header.Some? && WellFormed(header.value) && Blank(expected)
    ensures Authenticate(header, expected) == ServerMisconfigured ==>
      Reject(ServerMisconfigured).status == 500
  {
    if header.Some? {
      WellFormedIff(header.value);
      if WellFormed(header.value) {
        assert header.value != "";
      }
    }
  }

  /**
   * The gate: the handler runs exactly when the header presents the configured
   * token; a well-formed header presenting another token is rejected as invalid.
   */
  lemma TokenGate(header: Option<string>, expected: Option<string>)
    ensures Authenticate(header, expected) == Valid <==>
      header.Some? && expected.Some? && PresentsToken(header.value, expected.value)
    ensures Authenticate(header, expected) == Invalid <==>
      header.Some? && WellFormed(header.value) && !Blank(expected) && !PresentsToken(header.value, expected.value)
  {
    if header.Some? {
      WellFormedIff(header.value);
      if expected.Some? {
        PresentsTokenIff(header.value, expected.value);
      }
      if WellFormed(header.value) {
        assert header.value != "";
      }
    }
  }

  /** test_agent.py: no header, or an empty one, is missing. */
  lemma NoHeaderExample()
    ensures Authenticate(None, Some("test-token-123")) == Missing
    ensures Authenticate(Some(""), Some("test-token-123")) == Missing
  {
  }

  /** test_agent.py: a header of one word ("InvalidFormat", or a lone "Bearer") is malformed. */
  lemma SingleWordExample(word: string, expected: Option<string>)
    requires IsWord(word)
    ensures Authenticate(Some(word), expected) == Malformed
  {
    SplitWord(word);
  }

  /**
   * test_agent.py: "Bearer " followed by a token is accepted when the token is
   * the configured one and rejected as invalid otherwise; with no configured
   * token, or an empty one, it is a server fault.
   */
  lemma BearerTokenExamples(token: string, other: string)
    requires IsWord(token)
    ensures Authenticate(Some("Bearer " + token), Some(token)) == Valid
    ensures other != "" && other != token ==> Authenticate(Some("Bearer " + token), Some(other)) == Invalid
    ensures Authenticate(Some("Bearer " + token), None) == ServerMisconfigured
    ensures Authenticate(Some("Bearer " + token), Some("")) == ServerMisconfigured
  {
    SplitSchemeToken("Bearer", " ", token);
    assert "Bearer" + " " + token == "Bearer " + token;
  }

  /** The scheme is matched in any case, and a run of whitespace separates as well as one space. */
  lemma IrregularSpacingExample(gap: string, token: string)
    requires gap != [] && AllSpace(gap) && IsWord(token)
    ensures Authenticate(Some("bearer" + gap + token), Some(token)) == Valid
    ensures Authenticate(Some("BeArEr" + gap + token), Some(token)) == Valid
  {
    SplitSchemeToken("bearer", gap, token);
    SplitSchemeToken("BeArEr", gap, token);
  }

  /** A token followed by a further word is malformed. */
  lemma ThirdWordExample(token: string, extra: string, expected: Option<string>)
    requires IsWord(token) && IsWord(extra)
    ensures Authenticate(Some("Bearer " + token + " " + extra), expected) == Malformed
  {
    assert IsWord("Bearer");
    SplitThree("Bearer", token, extra);
    assert "Bearer" + (" " + (token + (" " + extra))) == "Bearer " + token + " " + extra;
  }

  /** A bearer scheme, a whitespace gap and a token split into those two words, scheme accepted. */
  lemma SplitSchemeToken(scheme: string, gap: string, token: string)
    requires IsBearerScheme(scheme) && gap != [] && AllSpace(gap) && IsWord(token)
    ensures Split(scheme + gap + token) == [scheme, token]
    ensures Lower(scheme) == "bearer"
  {
    BearerSchemeIsWord(scheme);
    SplitTwo(scheme, gap, token);
    LowerIsBearer(scheme);
  }
}

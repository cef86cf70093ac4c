/** `authMiddleware`: the gate in front of `/farmer/data`. It reads the
    `Authorization` header, takes the second space-separated word as the
    token, verifies it, and either rejects the request or lets it through
    with the token's account id. */
module Auth {
  import opened Wrappers
  import opened Tokens
  import opened Http

  /** `s.split(" ")`: the pieces of `s` between single spaces. Two adjacent
      spaces give an empty piece; `""` gives one empty piece. */
  function Split(s: string): (pieces: seq<string>)
    ensures |pieces| >= 1
    decreases |s|
  {
    if s == [] then [""]
    else
      var rest := Split(s[1..]);
      if s[0] == ' ' then [""] + rest else [[s[0]] + rest[0]] + rest[1..]
  }

  /** `pieces.join(" ")`, the partner of `Split`. */
  function Join(pieces: seq<string>): string
    requires |pieces| >= 1
    decreases |pieces|
  {
    if |pieces| == 1 then pieces[0] else pieces[0] + " " + Join(pieces[1..])
  }

  predicate NoSpace(s: string) {
    forall k :: 0 <= k < |s| ==> s[k] != ' '
  }

  /** Splitting and joining again gives back the header, and no piece holds
      a space. */
  lemma {:induction false} JoinSplit(s: string)
    ensures Join(Split(s)) == s
    ensures forall k :: 0 <= k < |Split(s)| ==> NoSpace(Split(s)[k])
    decreases |s|
  {
    if s != [] {
      JoinSplit(s[1..]);
      var rest := Split(s[1..]);
      if s[0] == ' ' {
        assert Split(s) == [""] + rest;
        assert Join(Split(s)) == "" + " " + Join(rest);
        assert s == [s[0]] + s[1..];
      } else {
        var pieces := Split(s);
        assert pieces == [[s[0]] + rest[0]] + rest[1..];
        if |rest| == 1 {
          assert Join(pieces) == [s[0]] + rest[0];
        } else {
          assert pieces[1..] == rest[1..];
          assert Join(pieces) == [s[0]] + rest[0] + " " + Join(rest[1..]);
          assert Join(rest) == rest[0] + " " + Join(rest[1..]);
        }
        assert s == [s[0]] + s[1..];
        forall k | 0 <= k < |pieces| ensures NoSpace(pieces[k]) {
          if k == 0 {
            assert NoSpace(rest[0]);
          } else {
            assert pieces[k] == rest[k];
          }
        }
      }
    }
  }

  /** A word without spaces splits to itself. */
  lemma {:induction false} SplitWord(w: string)
    requires NoSpace(w)
    ensures Split(w) == [w]
    decreases |w|
  {
    if w != [] {
      SplitWord(w[1..]);
      assert [w[0]] + w[1..] == w;
    }
  }

  /** A leading word and a space split off as the first piece. */
  lemma {:induction false} SplitFirstWord(w: string, tail: string)
    requires NoSpace(w)
    ensures Split(w + " " + tail) == [w] + Split(tail)
    decreases |w|
  {
    var s := w + " " + tail;
    if w == [] {
      assert s == " " + tail;
      assert s[1..] == tail;
    } else {
      assert s[1..] == w[1..] + " " + tail;
      SplitFirstWord(w[1..], tail);
      assert [w[0]] + w[1..] == w;
    }
  }

  /** Spaceless pieces split back out of their join. */
  lemma {:induction false} SplitJoin(pieces: seq<string>)
    requires |pieces| >= 1
    requires forall k :: 0 <= k < |pieces| ==> NoSpace(pieces[k])
    ensures Split(Join(pieces)) == pieces
    decreases |pieces|
  {
    if |pieces| == 1 {
      SplitWord(pieces[0]);
    } else {
      SplitJoin(pieces[1..]);
      SplitFirstWord(pieces[0], Join(pieces[1..]));
      assert [pieces[0]] + pieces[1..] == pieces;
    }
  }

  /** `authHeader.split(" ")[1]`: `None` stands for `undefined`. There is a
      second piece exactly when the header holds a space, and that piece holds
      none. */
  function TokenOf(header: string): (r: Option<string>)
    ensures r.None? <==> NoSpace(header)
    ensures r.Some? ==> NoSpace(r.value)
  {
    JoinSplit(header);
    var pieces := Split(header);
    if |pieces| >= 2 then
      assert header == pieces[0] + " " + Join(pieces[1..]);
      assert header[|pieces[0]|] == ' ';
      Some(pieces[1])
    else
      None
  }

  /** What the gate does with a request. */
  datatype Gate = Allow(userId: nat) | Deny(reply: Reply)

  const NO_TOKEN: Reply := Reply(401, Error("No token provided"))
  const INVALID_TOKEN: Reply := Reply(401, Error("Invalid token"))
  const TOKEN_NOT_VALID: Reply := Reply(403, Error("Token not valid"))

  /** `authMiddleware(req, res, next)`: `header` is the `Authorization`
      header (`None` when absent), `decode` the signature check and `now`
      the verifier's clock. `Allow(id)` stands for `req.userId = id; next()`. */
  function AuthGate(header: Option<string>, decode: string -> Option<Claims>, now: nat): (g: Gate)
    ensures g == Deny(NO_TOKEN) <==> header.None? || header == Some("")
    ensures g == Deny(INVALID_TOKEN) <==>
              header.Some? && header.value != "" && (TokenOf(header.value).None? || TokenOf(header.value) == Some(""))
    ensures g.Allow? <==>
              header.Some? && TokenOf(header.value).Some? && TokenOf(header.value).value != ""
              && Verify(TokenOf(header.value).value, decode, now).Some?
    ensures g == Deny(TOKEN_NOT_VALID) <==>
              header.Some? && header.value != "" && TokenOf(header.value).Some? && TokenOf(header.value).value != ""
              && Verify(TokenOf(header.value).value, decode, now).None?
    ensures g.Allow? ==> Verify(TokenOf(header.value).value, decode, now) == Some(g.userId)
    ensures g.Deny? ==> g.reply in {NO_TOKEN, INVALID_TOKEN, TOKEN_NOT_VALID}
  {
    if header.None? || header.value == "" then Deny(NO_TOKEN)
    else
      var token := TokenOf(header.value);
      if token.None? || token.value == "" then Deny(INVALID_TOKEN)
      else
        match Verify(token.value, decode, now)
        case None => Deny(TOKEN_NOT_VALID)
        case Some(id) => Allow(id)
  }

  /** A header of exactly one word (no space at all) is rejected as an
      invalid token, whatever the word is. */
  lemma OneWordHeaderInvalid(w: string, decode: string -> Option<Claims>, now: nat)
    requires w != "" && NoSpace(w)
    ensures AuthGate(Some(w), decode, now) == Deny(INVALID_TOKEN)
  {
    SplitWord(w);
  }

  /** Any first word is accepted, not only `Bearer`: for a scheme word and a
      token without spaces, the header `scheme + " " + token` (optionally
      followed by more space-separated text) is judged on `token` alone. */
  lemma AnySchemeAccepted(scheme: string, token: string, tail: Option<string>,
                          decode: string -> Option<Claims>, now: nat)
    requires NoSpace(scheme) && NoSpace(token) && token != ""
    ensures var header := scheme + " " + token + (if tail.Some? then " " + tail.value else "");
            AuthGate(Some(header), decode, now) ==
              (match Verify(token, decode, now)
               case None => Deny(TOKEN_NOT_VALID)
               case Some(id) => Allow(id))
  {
    var header := scheme + " " + token + (if tail.Some? then " " + tail.value else "");
    if tail.Some? {
      assert header == scheme + " " + (token + " " + tail.value);
      SplitFirstWord(scheme, token + " " + tail.value);
      SplitFirstWord(token, tail.value);
    } else {
      assert header == scheme + " " + token;
      SplitFirstWord(scheme, token);
      SplitWord(token);
    }
  }

  /** A bearer header carrying a token issued at `issuedAt` lets the request
      through as that account for one hour, and is refused with 403 after. */
  lemma BearerTokenLifetime(token: string, decode: string -> Option<Claims>, id: nat, issuedAt: nat, now: nat)
    requires NoSpace(token) && token != ""
    requires decode(token) == Some(Issue(id, issuedAt))
    ensures now < issuedAt + TOKEN_LIFETIME ==> AuthGate(Some("Bearer " + token), decode, now) == Allow(id)
    ensures now >= issuedAt + TOKEN_LIFETIME ==> AuthGate(Some("Bearer " + token), decode, now) == Deny(TOKEN_NOT_VALID)
  {
    assert NoSpace("Bearer");
    AnySchemeAccepted("Bearer", token, None, decode, now);
    assert "Bearer" + " " + token + "" == "Bearer " + token;
    IssuedTokenLifetime(token, decode, id, issuedAt, now);
  }
}

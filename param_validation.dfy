/** `validateParam` (src/middleware/validation.ts): a route parameter must be
    present and a version-4 UUID, matched case-insensitively by
    `/^[0-9a-f]{8}-[0-9a-f]{4}-4[0-9a-f]{3}-[89ab][0-9a-f]{3}-[0-9a-f]{12}$/i`. */
module ParamValidation {
  import opened Prelude
  import opened Http

  const DefaultParamName := "id"

  /** `[0-9a-f]` under the `i` flag. */
  predicate IsHexDigit(c: char)
  {
    '0' <= c <= '9' || 'a' <= c <= 'f' || 'A' <= c <= 'F'
  }

  /** `[89ab]` under the `i` flag. */
  predicate IsVariantDigit(c: char)
  {
    c == '8' || c == '9' || c == 'a' || c == 'b' || c == 'A' || c == 'B'
  }

  predicate AllHex(s: string)
  {
    forall i :: 0 <= i < |s| ==> IsHexDigit(s[i])
  }

  /** Positions of the four hyphens. */
  predicate IsHyphenPosition(i: int)
  {
    i == 8 || i == 13 || i == 18 || i == 23
  }

  /** The regular expression, position by position: 36 characters, hyphens
      at 8, 13, 18 and 23, the version digit '4' at 14, a variant digit at
      19, and hexadecimal digits everywhere else. */
  predicate IsUuidV4(s: string)
  {
    |s| == 36
    && (forall i :: 0 <= i < 36 && IsHyphenPosition(i) ==> s[i] == '-')
    && s[14] == '4'
    && IsVariantDigit(s[19])
    && (forall i :: 0 <= i < 36 && !IsHyphenPosition(i) ==> IsHexDigit(s[i]))
  }

  /** The five hyphen-separated groups of the pattern. */
  predicate GroupsMatch(g1: string, g2: string, g3: string, g4: string, g5: string)
  {
    |g1| == 8 && |g2| == 4 && |g3| == 4 && |g4| == 4 && |g5| == 12
    && AllHex(g1) && AllHex(g2) && AllHex(g3) && AllHex(g4) && AllHex(g5)
    && g3[0] == '4' && IsVariantDigit(g4[0])
  }

  function Joined(g1: string, g2: string, g3: string, g4: string, g5: string): string
  {
    g1 + "-" + g2 + "-" + g3 + "-" + g4 + "-" + g5
  }

  /** A string of groups that match, joined by hyphens, is accepted. */
  lemma GroupsAccepted(g1: string, g2: string, g3: string, g4: string, g5: string)
    requires GroupsMatch(g1, g2, g3, g4, g5)
    ensures IsUuidV4(Joined(g1, g2, g3, g4, g5))
  {
    var s := Joined(g1, g2, g3, g4, g5);
    assert forall i :: 0 <= i < 8 ==> s[i] == g1[i];
    assert forall i :: 9 <= i < 13 ==> s[i] == g2[i - 9];
    assert forall i :: 14 <= i < 18 ==> s[i] == g3[i - 14];
    assert forall i :: 19 <= i < 23 ==> s[i] == g4[i - 19];
    assert forall i :: 24 <= i < 36 ==> s[i] == g5[i - 24];
  }

  /** An accepted string splits into five matching groups. */
  lemma AcceptedSplits(s: string)
    requires IsUuidV4(s)
    ensures GroupsMatch(s[..8], s[9..13], s[14..18], s[19..23], s[24..])
    ensures s == Joined(s[..8], s[9..13], s[14..18], s[19..23], s[24..])
  {
    assert IsHyphenPosition(8) && IsHyphenPosition(13) && IsHyphenPosition(18) && IsHyphenPosition(23);
    var j := Joined(s[..8], s[9..13], s[14..18], s[19..23], s[24..]);
    assert |j| == 36;
    forall i | 0 <= i < 36 ensures j[i] == s[i] {
      if i < 8 { assert j[i] == s[..8][i]; }
      else if i == 8 { assert j[i] == '-'; }
      else if i < 13 { assert j[i] == s[9..13][i - 9]; }
      else if i == 13 { assert j[i] == '-'; }
      else if i < 18 { assert j[i] == s[14..18][i - 14]; }
      else if i == 18 { assert j[i] == '-'; }
      else if i < 23 { assert j[i] == s[19..23][i - 19]; }
      else if i == 23 { assert j[i] == '-'; }
      else { assert j[i] == s[24..][i - 24]; }
    }
  }

  /** Matching ignores the case of the hexadecimal letters. */
  lemma CaseInsensitive(s: string)
    ensures IsUuidV4(s) <==> IsUuidV4(LowerAscii(s))
  {
    var t := LowerAscii(s);
    if |s| == 36 {
      forall i | 0 <= i < 36
        ensures IsHexDigit(s[i]) <==> IsHexDigit(t[i])
        ensures s[i] == '-' <==> t[i] == '-'
        ensures IsVariantDigit(s[i]) <==> IsVariantDigit(t[i])
        ensures s[i] == '4' <==> t[i] == '4'
      {
        assert t[i] == LowerChar(s[i]);
      }
    }
  }

  /** The reply `validateParam(paramName)` sends, or `None` when the request
      goes on to `next`. */
  function CheckParam(params: map<string, string>, paramName: string): (r: Option<Reply>)
    ensures (paramName !in params || params[paramName] == "") ==>
      r == Some(BadRequest(paramName + " parameter is required"))
    ensures paramName in params && params[paramName] != "" && !IsUuidV4(params[paramName]) ==>
      r == Some(BadRequest("Invalid " + paramName + " format"))
    ensures r.None? <==> paramName in params && IsUuidV4(params[paramName])
  {
    if paramName !in params || params[paramName] == "" then
      Some(BadRequest(paramName + " parameter is required"))
    else if !IsUuidV4(params[paramName]) then
      Some(BadRequest("Invalid " + paramName + " format"))
    else
      None
  }

  /** The middleware returned by `validateParam(paramName)`, applied to a
      request: either the 400 reply is sent, or `next` is called once. */
  method ValidateParam(ex: Exchange, params: map<string, string>, paramName: string := DefaultParamName)
    modifies ex
    ensures CheckParam(params, paramName).Some? ==>
      ex.replies == old(ex.replies) + [CheckParam(params, paramName).value] && ex.nextCalls == old(ex.nextCalls)
    ensures CheckParam(params, paramName).None? ==>
      ex.nextCalls == old(ex.nextCalls) + 1 && ex.replies == old(ex.replies)
    ensures ex.user == old(ex.user)
  {
    var id := if paramName in params then params[paramName] else "";
    if id == "" {
      ex.Send(BadRequest(paramName + " parameter is required"));
      return;
    }
    if !IsUuidV4(id) {
      ex.Send(BadRequest("Invalid " + paramName + " format"));
      return;
    }
    ex.Next();
  }
}

/**
 * The `verifyToken` middleware: take the second space-separated field of the
 * Authorization header, reject with 401 when there is none, verify it (an
 * abstract partial function standing for `jwt.verify` with the server secret),
 * reject with 403 when verification fails, otherwise set `req.user` and call
 * `next` once.
 */
module Middleware {
  import opened Wrappers
  import opened Entities

  /** `s.split(sep)` for a one-character separator: every occurrence of `sep`
      ends a field, and empty fields are kept. */
  function Split(s: string, sep: char): (parts: seq<string>)
    ensures |parts| >= 1
    ensures forall i :: 0 <= i < |parts| ==> sep !in parts[i]
    decreases |s|
  {
    if s == [] then [""]
    else
      var rest := Split(s[1..], sep);
      if s[0] == sep then [""] + rest
      else [[s[0]] + rest[0]] + rest[1..]
  }

  /** `parts.join(sep)`, the inverse of `Split`. */
  function Join(parts: seq<string>, sep: char): string
    requires |parts| >= 1
  {
    if |parts| == 1 then parts[0] else parts[0] + [sep] + Join(parts[1..], sep)
  }

  /** A word free of the separator is split off as the first field. */
  lemma {:induction false} SplitWord(w: string, sep: char, s: string)
    requires sep !in w
    ensures Split(w + [sep] + s, sep) == [w] + Split(s, sep)
    decreases |w|
  {
    if w == [] {
      assert w + [sep] + s == [sep] + s;
      assert ([sep] + s)[1..] == s;
    } else {
      SplitWord(w[1..], sep, s);
      assert (w + [sep] + s)[1..] == w[1..] + [sep] + s;
      assert [w[0]] + w[1..] == w;
    }
  }

  /** A string free of the separator is a single field. */
  lemma {:induction false} SplitLastWord(w: string, sep: char)
    requires sep !in w
    ensures Split(w, sep) == [w]
    decreases |w|
  {
    if w != [] {
      SplitLastWord(w[1..], sep);
      assert [w[0]] + w[1..] == w;
    }
  }

  /** Joining the fields of a split gives back the string. */
  lemma {:induction false} JoinSplit(s: string, sep: char)
    ensures Join(Split(s, sep), sep) == s
    decreases |s|
  {
    if s != [] {
      JoinSplit(s[1..], sep);
      var rest := Split(s[1..], sep);
      if s[0] == sep {
        assert ([""] + rest)[1..] == rest;
        assert [s[0]] + s[1..] == s;
      } else {
        var parts := [[s[0]] + rest[0]] + rest[1..];
        if |rest| == 1 {
          assert [s[0]] + s[1..] == s;
        } else {
          assert parts[1..] == rest[1..];
          assert Join(rest, sep) == rest[0] + [sep] + Join(rest[1..], sep);
          assert [s[0]] + s[1..] == s;
        }
      }
    }
  }

  /** Splitting a join of separator-free fields gives back the fields. */
  lemma {:induction false} SplitJoin(parts: seq<string>, sep: char)
    requires |parts| >= 1
    requires forall i :: 0 <= i < |parts| ==> sep !in parts[i]
    ensures Split(Join(parts, sep), sep) == parts
    decreases |parts|
  {
    if |parts| == 1 {
      SplitLastWord(parts[0], sep);
    } else {
      SplitJoin(parts[1..], sep);
      SplitWord(parts[0], sep, Join(parts[1..], sep));
      assert [parts[0]] + parts[1..] == parts;
    }
  }

  /** `authHeader && authHeader.split(' ')[1]`, with an empty result read as absent. */
  function BearerToken(header: Option<string>): (token: Option<string>)
    ensures token.Some? ==> token.value != "" && ' ' !in token.value
  {
    match header
    case None => None
    case Some(h) =>
      var parts := Split(h, ' ');
      if |parts| >= 2 && parts[1] != "" then Some(parts[1]) else None
  }

  /** The token is the field after the first space, whatever the scheme word is. */
  lemma BearerTokenOf(scheme: string, token: string, tail: string)
    requires ' ' !in scheme && ' ' !in token && token != ""
    requires tail == [] || tail[0] == ' '
    ensures BearerToken(Some(scheme + [' '] + token + tail)) == Some(token)
  {
    SplitWord(scheme, ' ', token + tail);
    assert scheme + [' '] + token + tail == scheme + [' '] + (token + tail);
    if tail == [] {
      assert token + tail == token;
      SplitLastWord(token, ' ');
    } else {
      assert token + tail == token + [' '] + tail[1..];
      SplitWord(token, ' ', tail[1..]);
    }
  }

  /** Conversely, a token found in a header has exactly that shape. */
  lemma BearerTokenShape(h: string, token: string) returns (scheme: string, tail: string)
    requires BearerToken(Some(h)) == Some(token)
    ensures h == scheme + [' '] + token + tail
    ensures ' ' !in scheme && (tail == [] || tail[0] == ' ')
  {
    var parts := Split(h, ' ');
    JoinSplit(h, ' ');
    scheme := parts[0];
    if |parts| == 2 {
      tail := [];
    } else {
      tail := [' '] + Join(parts[2..], ' ');
      assert parts[1..][1..] == parts[2..];
    }
  }

  /** A header without a space carries no token. */
  lemma NoSpaceNoToken(h: string)
    requires ' ' !in h
    ensures BearerToken(Some(h)) == None
  {
    SplitLastWord(h, ' ');
  }

  /** Two spaces after the scheme leave an empty second field: no token. */
  lemma DoubleSpaceNoToken(scheme: string, rest: string)
    requires ' ' !in scheme
    ensures BearerToken(Some(scheme + [' ', ' '] + rest)) == None
  {
    SplitWord(scheme, ' ', [' '] + rest);
    assert scheme + [' ', ' '] + rest == scheme + [' '] + ([' '] + rest);
    assert ([' '] + rest)[1..] == rest;
  }

  /** What the middleware decides. */
  datatype Decision = Unauthorized | Forbidden | Next(user: Claims)

  /** The decision for a header, given the verification oracle. */
  function Authenticate(header: Option<string>, verify: string -> Option<Claims>): (d: Decision)
    ensures d == Unauthorized <==> BearerToken(header) == None
    ensures d == Forbidden <==> BearerToken(header).Some? && verify(BearerToken(header).value) == None
    ensures d.Next? ==> BearerToken(header).Some? && verify(BearerToken(header).value) == Some(d.user)
  {
    match BearerToken(header)
    case None => Unauthorized
    case Some(token) =>
      match verify(token)
      case None => Forbidden
      case Some(decoded) => Next(decoded)
  }

  /** The scheme word is never checked: only the token after it reaches `verify`. */
  lemma SchemeNotChecked(scheme: string, token: string, verify: string -> Option<Claims>)
    requires ' ' !in scheme && ' ' !in token && token != ""
    ensures Authenticate(Some(scheme + [' '] + token), verify)
         == (if verify(token).Some? then Next(verify(token).value) else Forbidden)
  {
    assert scheme + [' '] + token == scheme + [' '] + token + [];
    BearerTokenOf(scheme, token, []);
  }

  /** The parts of an Express request the middleware reads and writes. */
  class Request {
    const authorization: Option<string>
    var user: Option<Claims>

    constructor (authorization: Option<string>)
      ensures this.authorization == authorization && user == None
    {
      this.authorization := authorization;
      user := None;
    }
  }

  /** The middleware itself: the reply it sends (none when it passes on) and
      how many times it calls `next`. */
  method VerifyToken(req: Request, verify: string -> Option<Claims>) returns (reply: Option<Response>, nextCalls: nat)
    modifies req
    ensures match Authenticate(req.authorization, verify)
      case Unauthorized =>
        && reply == Some(Response(StatusUnauthorized, Denied("Unauthorized")))
        && nextCalls == 0 && req.user == old(req.user)
      case Forbidden =>
        && reply == Some(Response(StatusForbidden, Denied("Forbidden")))
        && nextCalls == 0 && req.user == old(req.user)
      case Next(decoded) =>
        reply == None && nextCalls == 1 && req.user == Some(decoded)
  {
    var token := BearerToken(req.authorization);
    if token.None? {
      return Some(Response(StatusUnauthorized, Denied("Unauthorized"))), 0;
    }
    var decoded := verify(token.value);
    if decoded.None? {
      return Some(Response(StatusForbidden, Denied("Forbidden"))), 0;
    }
    req.user := decoded;
    reply, nextCalls := None, 1;
  }
}

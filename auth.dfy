/** The authentication service: credential validation with the stored
    hash comparison as an oracle, the login payload with the token signer as
    an oracle, and the two `Set-Cookie` strings. The cookies are related to
    their attribute lists by a parser that splits on ';' and drops the one
    space after each separator. */
module Auth {
  import opened Wrappers
  import opened Text

  /** The configuration values the service reads. */
  datatype Config = Config(nodeEnv: string, currentDomain: string, jwtExpirationTime: string)

  predicate IsProduction(c: Config) {
    c.nodeEnv == "production"
  }

  /** `Domain=<domain>; ` in production, empty otherwise. */
  function DomainString(c: Config): string {
    if IsProduction(c) then "Domain=" + c.currentDomain + "; " else ""
  }

  /** The deletion cookie's `expiration`, as interpolated. */
  const DeletionExpiration: string := "0"

  /** `getDeletionCookie`; the template is written piecewise, broken at
      each `"; "`. It is the deletion attribute list, joined by `"; "`. */
  function DeletionCookie(c: Config): (r: string)
    ensures r == Join(DeletionAttributes(c))
  {
    var maxAge := "Max-Age=" + DeletionExpiration;
    var tail := (if IsProduction(c) then ["Domain=" + c.currentDomain] else []) + [maxAge];
    DomainThen(c, maxAge);
    assert DeletionAttributes(c) == ["Authentication=", "HttpOnly=true", "Secure=true", "Path=/"] + tail;
    JoinFour("Authentication=", "HttpOnly=true", "Secure=true", "Path=/", tail);
    RegroupFour("Authentication=", "HttpOnly=true", "Secure=true", "Path=/", "; ",
                DomainString(c), "Max-Age=", DeletionExpiration);
    "Authentication=" + "; " + "HttpOnly=true" + "; " + "Secure=true" + "; " + "Path=/" + "; " +
    DomainString(c) + "Max-Age=" + DeletionExpiration
  }

  /** The JWT payload: the username and nothing else. */
  datatype JwtPayload = JwtPayload(username: string)

  /** `login`'s result. */
  datatype LoginResult = LoginResult(accessToken: string)

  /** `login`: sign a payload made of the username only. */
  function Login(username: string, sign: JwtPayload -> string): (r: LoginResult)
    ensures r.accessToken == sign(JwtPayload(username))
  {
    LoginResult(sign(JwtPayload(username)))
  }

  /** `getJwtCookie`; the template is written piecewise, broken at each
      `"; "`. It is the JWT attribute list for the login token, joined by
      `"; "`. */
  function JwtCookie(c: Config, username: string, sign: JwtPayload -> string): (r: string)
    ensures r == Join(JwtAttributes(c, Login(username, sign).accessToken))
  {
    var token := Login(username, sign).accessToken;
    var maxAge := "Max-Age=" + c.jwtExpirationTime;
    var secureString := if IsProduction(c) then "Secure=true" + "; " else "";
    var tail := (if IsProduction(c) then ["Secure=true", "Domain=" + c.currentDomain] else []) + [maxAge];
    SecureDomainThen(c, maxAge);
    assert JwtAttributes(c, token) == ["Authentication=" + token, "HttpOnly=true", "Path=/"] + tail;
    JoinThree("Authentication=" + token, "HttpOnly=true", "Path=/", tail);
    RegroupThree("Authentication=" + token, "HttpOnly=true", "Path=/", "; ",
                 secureString, DomainString(c), "Max-Age=", c.jwtExpirationTime);
    "Authentication=" + token + "; " + "HttpOnly=true" + "; " + "Path=/" + "; " +
    secureString + DomainString(c) + "Max-Age=" + c.jwtExpirationTime
  }

  // ---------------------------------------------------------------------
  // Reading a cookie string back as its attributes

  /** `s.split(sep)` for a one-character separator. */
  function Split(s: string, sep: char): (r: seq<string>)
    ensures |r| >= 1
  {
    if |s| == 0 then [""]
    else if s[0] == sep then [""] + Split(s[1..], sep)
    else
      var rest := Split(s[1..], sep);
      [[s[0]] + rest[0]] + rest[1..]
  }

  /** A piece without the separator comes back whole and ends at the first separator. */
  lemma {:induction false} SplitPiece(a: string, sep: char, b: string, sepFollows: bool)
    requires sep !in a
    ensures sepFollows ==> Split(a + [sep] + b, sep) == [a] + Split(b, sep)
    ensures !sepFollows ==> Split(a, sep) == [a]
    decreases |a|
  {
    if |a| > 0 {
      SplitPiece(a[1..], sep, b, sepFollows);
      if sepFollows {
        assert (a + [sep] + b)[1..] == a[1..] + [sep] + b;
      }
      assert [a[0]] + a[1..] == a;
    } else if sepFollows {
      assert a + [sep] + b == [sep] + b;
      assert ([sep] + b)[1..] == b;
    }
  }

  /** A leading character other than the separator joins the first piece. */
  lemma SplitCons(ch: char, sep: char, s: string)
    requires ch != sep
    ensures Split([ch] + s, sep) == [[ch] + Split(s, sep)[0]] + Split(s, sep)[1..]
  {
    assert ([ch] + s)[1..] == s;
  }

  /** The attributes joined the way the service writes them: `"; "` between. */
  function Join(attrs: seq<string>): string
    requires |attrs| > 0
  {
    if |attrs| == 1 then attrs[0] else attrs[0] + "; " + Join(attrs[1..])
  }

  /** Drop the one space a `"; "` separator leaves. */
  function TrimLead(s: string): (r: string)
    ensures |s| > 0 && s[0] == ' ' ==> r == s[1..]
    ensures !(|s| > 0 && s[0] == ' ') ==> r == s
  {
    if |s| > 0 && s[0] == ' ' then s[1..] else s
  }

  /** The attributes of a cookie string. */
  function ParseAttributes(cookie: string): (r: seq<string>)
    ensures |r| == |Split(cookie, ';')|
    ensures forall i :: 0 <= i < |r| ==> r[i] == TrimLead(Split(cookie, ';')[i])
  {
    var parts := Split(cookie, ';');
    seq(|parts|, i requires 0 <= i < |parts| => TrimLead(parts[i]))
  }

  /** No attribute holds the separator. */
  predicate Separable(attrs: seq<string>) {
    forall i :: 0 <= i < |attrs| ==> ';' !in attrs[i]
  }

  /** Splitting a joined list yields the first attribute, then each other
      one behind the space of its separator. */
  lemma {:induction false} SplitJoin(attrs: seq<string>)
    requires |attrs| > 0 && Separable(attrs)
    ensures |Split(Join(attrs), ';')| == |attrs|
    ensures Split(Join(attrs), ';')[0] == attrs[0]
    ensures forall i :: 0 < i < |attrs| ==> Split(Join(attrs), ';')[i] == " " + attrs[i]
    decreases |attrs|
  {
    if |attrs| == 1 {
      SplitPiece(attrs[0], ';', "", false);
    } else {
      var rest := attrs[1..];
      assert Separable(rest) by {
        forall i | 0 <= i < |rest| ensures ';' !in rest[i] {
          assert rest[i] == attrs[i + 1];
        }
      }
      SplitJoin(rest);
      assert Join(attrs) == attrs[0] + [';'] + ([' '] + Join(rest));
      SplitPiece(attrs[0], ';', [' '] + Join(rest), true);
      SplitCons(' ', ';', Join(rest));
      var tail := Split(Join(rest), ';');
      assert Split(Join(attrs), ';') == [attrs[0]] + ([[' '] + tail[0]] + tail[1..]);
      forall i | 0 < i < |attrs| ensures Split(Join(attrs), ';')[i] == " " + attrs[i] {
        if i == 1 {
          assert tail[0] == rest[0];
        } else {
          assert tail[i - 1] == " " + rest[i - 1];
        }
      }
    }
  }

  /** Reading back a joined list gives the list, when no attribute holds a
      ';' and the first does not start with a space. */
  lemma ParseJoin(attrs: seq<string>)
    requires |attrs| > 0 && Separable(attrs)
    requires !(|attrs[0]| > 0 && attrs[0][0] == ' ')
    ensures ParseAttributes(Join(attrs)) == attrs
  {
    SplitJoin(attrs);
    var r := ParseAttributes(Join(attrs));
    forall i | 0 <= i < |attrs| ensures r[i] == attrs[i] {
      if i > 0 {
        assert (" " + attrs[i])[1..] == attrs[i];
      }
    }
  }

  /** The deletion cookie's attributes, in order. */
  function DeletionAttributes(c: Config): seq<string> {
    ["Authentication=", "HttpOnly=true", "Secure=true", "Path=/"] +
    ((if IsProduction(c) then ["Domain=" + c.currentDomain] else []) + ["Max-Age=" + DeletionExpiration])
  }

  /** The JWT cookie's attributes, in order. */
  function JwtAttributes(c: Config, token: string): seq<string> {
    ["Authentication=" + token, "HttpOnly=true", "Path=/"] +
    ((if IsProduction(c) then ["Secure=true", "Domain=" + c.currentDomain] else []) + ["Max-Age=" + c.jwtExpirationTime])
  }

  lemma {:induction false} JoinCons(x: string, rest: seq<string>)
    requires |rest| > 0
    ensures Join([x] + rest) == x + "; " + Join(rest)
  {
    assert ([x] + rest)[1..] == rest;
  }

  /** Three attributes in front of a tail, joined. */
  lemma {:induction false} JoinThree(a: string, b: string, e: string, tail: seq<string>)
    requires |tail| > 0
    ensures Join([a, b, e] + tail) == a + "; " + (b + "; " + (e + "; " + Join(tail)))
  {
    var l2 := [e] + tail;
    var l1 := [b] + l2;
    assert [a, b, e] + tail == [a] + l1;
    JoinCons(e, tail);
    JoinCons(b, l2);
    JoinCons(a, l1);
  }

  /** Four attributes in front of a tail, joined. */
  lemma {:induction false} JoinFour(a: string, b: string, d: string, e: string, tail: seq<string>)
    requires |tail| > 0
    ensures Join([a, b, d, e] + tail) == a + "; " + (b + "; " + (d + "; " + (e + "; " + Join(tail))))
  {
    var l := [b, d, e] + tail;
    JoinThree(b, d, e, tail);
    assert [a, b, d, e] + tail == [a] + l;
    JoinCons(a, l);
  }

  /** Regrouping the deletion template's concatenation. */
  lemma {:induction false} RegroupFour(a: string, b: string, d: string, e: string, s: string, u: string, v: string, w: string)
    ensures a + s + b + s + d + s + e + s + u + v + w == a + s + (b + s + (d + s + (e + s + (u + (v + w)))))
  {
  }

  /** Regrouping the JWT template's concatenation. */
  lemma {:induction false} RegroupThree(a: string, b: string, e: string, s: string, x: string, u: string, v: string, w: string)
    ensures a + s + b + s + e + s + x + u + v + w == a + s + (b + s + (e + s + (x + u + (v + w))))
  {
  }

  /** The production-only domain in front of a last attribute, joined. */
  lemma {:induction false} DomainThen(c: Config, last: string)
    ensures Join((if IsProduction(c) then ["Domain=" + c.currentDomain] else []) + [last]) ==
            DomainString(c) + last
  {
    if IsProduction(c) {
      JoinCons("Domain=" + c.currentDomain, [last]);
    }
  }

  /** The production-only `Secure` flag and domain in front of a last
      attribute, joined. */
  lemma {:induction false} SecureDomainThen(c: Config, last: string)
    ensures Join((if IsProduction(c) then ["Secure=true", "Domain=" + c.currentDomain] else []) + [last]) ==
            (if IsProduction(c) then "Secure=true" + "; " else "") + (DomainString(c) + last)
  {
    if IsProduction(c) {
      JoinCons("Domain=" + c.currentDomain, [last]);
      JoinCons("Secure=true", ["Domain=" + c.currentDomain, last]);
      assert ["Secure=true", "Domain=" + c.currentDomain] + [last] == ["Secure=true"] + ["Domain=" + c.currentDomain, last];
    }
  }

  /** The deletion cookie reads back as: an empty `Authentication`,
      `HttpOnly=true`, `Secure=true`, `Path=/`, the domain in production
      only, and `Max-Age=0`. */
  lemma DeletionCookieAttributes(c: Config)
    requires ';' !in c.currentDomain
    ensures ParseAttributes(DeletionCookie(c)) == DeletionAttributes(c)
  {
    var a := DeletionAttributes(c);
    assert Separable(a) by {
      forall i | 0 <= i < |a| ensures ';' !in a[i] {
        if IsProduction(c) && i == 4 {
          assert a[i] == "Domain=" + c.currentDomain;
        }
      }
    }
    ParseJoin(a);
  }

  /** The JWT cookie reads back as the login token, `HttpOnly=true`,
      `Path=/`, `Secure=true` and the domain in production only, and the
      configured `Max-Age`. */
  lemma JwtCookieAttributes(c: Config, username: string, sign: JwtPayload -> string)
    requires ';' !in c.currentDomain && ';' !in c.jwtExpirationTime
    requires ';' !in sign(JwtPayload(username))
    ensures ParseAttributes(JwtCookie(c, username, sign)) == JwtAttributes(c, Login(username, sign).accessToken)
  {
    var token := Login(username, sign).accessToken;
    var a := JwtAttributes(c, token);
    assert Separable(a) by {
      forall i | 0 <= i < |a| ensures ';' !in a[i] {
        if i == 0 {
          assert a[0] == "Authentication=" + token;
        } else if i == |a| - 1 {
          assert a[i] == "Max-Age=" + c.jwtExpirationTime;
        } else if IsProduction(c) && i == 4 {
          assert a[i] == "Domain=" + c.currentDomain;
        }
      }
    }
    ParseJoin(a);
  }

  lemma NotADomain(s: string)
    requires |s| > 0 && s[0] != 'D'
    ensures !StartsWith(s, "Domain=")
  {
  }

  /** An attribute of the form `Domain=...` is present exactly in production,
      in both cookies; the JWT cookie is `Secure` exactly in production. */
  lemma ProductionOnlyAttributes(c: Config, token: string)
    ensures (exists i :: 0 <= i < |DeletionAttributes(c)| && StartsWith(DeletionAttributes(c)[i], "Domain=")) <==>
              IsProduction(c)
    ensures (exists i :: 0 <= i < |JwtAttributes(c, token)| && StartsWith(JwtAttributes(c, token)[i], "Domain=")) <==>
              IsProduction(c)
    ensures "Secure=true" in JwtAttributes(c, token) <==> IsProduction(c)
    ensures "Secure=true" in DeletionAttributes(c)
  {
    var d, j := DeletionAttributes(c), JwtAttributes(c, token);
    assert ("Domain=" + c.currentDomain)[..7] == "Domain=";
    if IsProduction(c) {
      assert StartsWith(d[4], "Domain=");
      assert StartsWith(j[4], "Domain=");
      assert j[3] == "Secure=true";
    } else {
      assert d == ["Authentication=", "HttpOnly=true", "Secure=true", "Path=/", "Max-Age=" + DeletionExpiration];
      forall i | 0 <= i < |d| ensures !StartsWith(d[i], "Domain=") {
        NotADomain(d[i]);
      }
      assert j == ["Authentication=" + token, "HttpOnly=true", "Path=/", "Max-Age=" + c.jwtExpirationTime];
      assert j[0][0] == 'A' && j[3][0] == 'M';
      forall i | 0 <= i < |j| ensures !StartsWith(j[i], "Domain=") && j[i] != "Secure=true" {
        NotADomain(j[i]);
        assert j[i][0] != "Secure=true"[0];
      }
    }
  }

  // ---------------------------------------------------------------------
  // Credential validation

  /** What `bcrypt.compare` does: resolves true, resolves false, or throws
      (for instance on a missing hash). */
  datatype Comparison = Match | NoMatch | Threw

  /** `validateUser`: the user document without its password field on a
      match, and nothing when there is no user, no match, or the
      comparison throws. */
  function ValidateUser(user: Option<map<string, string>>, pw: string,
                        compare: (string, Option<string>) -> Comparison): (r: Option<map<string, string>>)
    ensures r.Some? <==>
              user.Some? &&
              compare(pw, if "password" in user.value then Some(user.value["password"]) else None) == Match
    ensures r.Some? ==> "password" !in r.value
    ensures r.Some? ==> forall k :: k in r.value <==> k in user.value && k != "password"
    ensures r.Some? ==> forall k :: k in r.value ==> r.value[k] == user.value[k]
  {
    if user.None? then None
    else
      var hash := if "password" in user.value then Some(user.value["password"]) else None;
      match compare(pw, hash)
      case Match => Some(user.value - {"password"})
      case NoMatch => None
      case Threw => None
  }
}

/**
 * The request validation and the bearer-header check of the standalone
 * authentication module (server/auth-system.ts). Token verification is done
 * by the JWT library; it is a parameter here (`verify`).
 */
module AuthSystem {
  import opened Wrappers

  /** Whether some character of `s` lies in the range `lo`..`hi` (a `/[lo-hi]/` test). */
  function HasCharIn(s: string, lo: char, hi: char): (r: bool)
    ensures r <==> exists i :: 0 <= i < |s| && lo <= s[i] <= hi
  {
    if s == [] then false
    else if lo <= s[0] <= hi then true
    else
      var r := HasCharIn(s[1..], lo, hi);
      assert r ==> exists i :: 1 <= i < |s| && lo <= s[i] <= hi by {
        if r {
          var j :| 0 <= j < |s[1..]| && lo <= s[1..][j] <= hi;
          assert lo <= s[j + 1] <= hi;
        }
      }
      r
  }

  /** `registerSchema`'s password rule. */
  predicate RegisterPasswordOk(password: string)
  {
    |password| >= 8 && HasCharIn(password, 'A', 'Z') && HasCharIn(password, 'a', 'z') && HasCharIn(password, '0', '9')
  }

  /** `registerSchema` */
  predicate RegisterAccepts(email: string, password: string, isEmail: string -> bool)
  {
    isEmail(email) && RegisterPasswordOk(password)
  }

  /** `loginSchema` */
  predicate LoginAccepts(email: string, password: string, isEmail: string -> bool)
  {
    isEmail(email) && |password| >= 1
  }

  /** `refreshTokenSchema` */
  predicate RefreshAccepts(refreshToken: string)
  {
    |refreshToken| >= 1
  }

  /** A register password is accepted exactly when it is long enough and has an upper, a lower and a digit. */
  lemma RegisterPasswordRule(password: string)
    ensures RegisterPasswordOk(password) <==>
      && |password| >= 8
      && (exists i :: 0 <= i < |password| && 'A' <= password[i] <= 'Z')
      && (exists i :: 0 <= i < |password| && 'a' <= password[i] <= 'z')
      && (exists i :: 0 <= i < |password| && '0' <= password[i] <= '9')
  {
  }

  /** A refresh token is accepted exactly when it is not empty. */
  lemma RefreshTokenRule(refreshToken: string)
    ensures RefreshAccepts(refreshToken) <==> refreshToken != ""
  {
  }

  /** Anything that can register can log in. */
  lemma RegisterImpliesLogin(email: string, password: string, isEmail: string -> bool)
    requires RegisterAccepts(email, password, isEmail)
    ensures LoginAccepts(email, password, isEmail)
  {
  }

  /** `s.join(" ")` */
  function Join(fields: seq<string>): (r: string)
    requires |fields| >= 1
    ensures fields[0] <= r
    ensures |fields| > 1 ==> |r| > |fields[0]| && r[|fields[0]|] == ' '
  {
    if |fields| == 1 then fields[0] else fields[0] + " " + Join(fields[1..])
  }

  /** `s.split(" ")`: the maximal runs between single spaces, empty runs included. */
  function Split(s: string): (r: seq<string>)
    ensures |r| >= 1
    ensures forall i :: 0 <= i < |r| ==> ' ' !in r[i]
    ensures Join(r) == s
    // the first field is the text before the first space
    ensures r[0] <= s && (|r[0]| == |s| || s[|r[0]|] == ' ')
  {
    if s == [] then [""]
    else
      var rest := Split(s[1..]);
      if s[0] == ' ' then
        assert Join([""] + rest) == " " + Join(rest) by {
          assert ([""] + rest)[1..] == rest;
        }
        [""] + rest
      else
        var first := [s[0]] + rest[0];
        assert Join([first] + rest[1..]) == [s[0]] + Join(rest) by {
          if |rest| > 1 {
            assert ([first] + rest[1..])[1..] == rest[1..];
          }
        }
        assert s == [s[0]] + s[1..];
        [first] + rest[1..]
  }

  /** Splitting a join of space-free fields gives the fields back. */
  lemma {:induction false} SplitJoin(fields: seq<string>)
    requires |fields| >= 1
    requires forall i :: 0 <= i < |fields| ==> ' ' !in fields[i]
    ensures Split(Join(fields)) == fields
  {
    if |fields| == 1 {
      SplitSpaceFree(fields[0]);
    } else {
      SplitJoin(fields[1..]);
      SplitAround(fields[0], Join(fields[1..]));
      assert fields == [fields[0]] + fields[1..];
    }
  }

  /** A space-free string is one field. */
  lemma {:induction false} SplitSpaceFree(s: string)
    requires ' ' !in s
    ensures Split(s) == [s]
  {
    if s != [] {
      SplitSpaceFree(s[1..]);
    }
  }

  /** Splitting `a + " " + b` for a space-free `a` gives `a` and then the fields of `b`. */
  lemma {:induction false} SplitAround(a: string, b: string)
    requires ' ' !in a
    ensures Split(a + " " + b) == [a] + Split(b)
  {
    if a == [] {
      assert a + " " + b == [' '] + b;
      assert (a + " " + b)[1..] == b;
    } else {
      assert (a + " " + b)[1..] == a[1..] + " " + b;
      SplitAround(a[1..], b);
      assert a == [a[0]] + a[1..];
    }
  }

  /** What the JWT library reports for a token. */
  datatype Verdict = Verified(userId: string, email: string) | Expired | Malformed

  /** What `authenticate` does with a request. */
  datatype Outcome = Next(userId: string, email: string) | Unauthorized(message: string)

  const BearerPrefix: string := "Bearer "

  /** `authHeader.split(" ")[1]` for a header that starts with "Bearer ". */
  function BearerToken(header: string): (token: string)
    requires BearerPrefix <= header
    ensures token == Split(header[|BearerPrefix|..])[0]
    ensures ' ' !in token
  {
    SplitAround("Bearer", header[|BearerPrefix|..]);
    assert header == "Bearer" + " " + header[|BearerPrefix|..];
    Split(header)[1]
  }

  /** The `authenticate` middleware: header check, token extraction, verification. */
  function Authenticate(header: Option<string>, verify: string -> Verdict): (r: Outcome)
    ensures header.None? || !(BearerPrefix <= header.value) ==> r == Unauthorized("Authentication required")
    ensures r.Next? <==> header.Some? && BearerPrefix <= header.value && verify(BearerToken(header.value)).Verified?
    ensures r.Next? ==> verify(BearerToken(header.value)) == Verified(r.userId, r.email)
  {
    if header.None? || !(BearerPrefix <= header.value) then Unauthorized("Authentication required")
    else
      match verify(BearerToken(header.value))
      case Verified(id, email) => Next(id, email)
      case Expired => Unauthorized("Token expired")
      case Malformed => Unauthorized("Invalid token")
  }

  /** With two spaces after "Bearer" the token is the empty string. */
  lemma DoubleSpaceGivesEmptyToken(rest: string)
    ensures BearerToken("Bearer  " + rest) == ""
  {
    var h := "Bearer  " + rest;
    assert h[|BearerPrefix|..] == " " + rest;
    SplitAround("", rest);
    assert "" + " " + rest == " " + rest;
  }
}

/** The browser login target, "email::redirect" in raw base64url, printed by GenerateBrowserLoginURL and read back by
  * HandleBrowserAuthCallback (handlers_browser.go).  Signing is left to the signer: what is read is what was printed.
  */
module BrowserTarget {
  import opened Common
  import Base64Url

  const FALLBACK: Bytes := "/admin/ops"

  datatype Target = Target(email: Bytes, redirect: Bytes)

  function Print(email: Bytes, redirect: Bytes): Bytes {
    Base64Url.Encode(email + "::" + redirect, false)
  }

  /** strings.SplitN(s, "::", 2) when it finds a separator. */
  function Split(s: Bytes): Option<Target> {
    if |s| < 2 then None
    else if s[..2] == "::" then Some(Target([], s[2..]))
    else
      var r := Split(s[1..]);
      if r.None? then None else Some(Target([s[0]] + r.value.email, r.value.redirect))
  }

  predicate IsLocalPath(path: Bytes) {
    "/" <= path && !("//" <= path)
  }

  lemma FallbackIsLocal()
    ensures IsLocalPath(FALLBACK)
  {
    assert FALLBACK[0] == '/' && FALLBACK[1] == 'a';
  }

  predicate IsLegacy(payload: Bytes) {
    Base64Url.Decode(payload, false).None?
  }

  /** What the callback makes of a verified payload, before it restricts the redirect. */
  function Parse(payload: Bytes): Target {
    match Base64Url.Decode(payload, false)
    case None => Target([], payload)
    case Some(raw) =>
      var r := Split(raw);
      if r.Some? then r.value else Target([], FALLBACK)
  }

  function Read(payload: Bytes): Target {
    var r := Parse(payload);
    if IsLocalPath(r.redirect) then r else r.(redirect := FALLBACK)
  }

  predicate SplitsCleanly(email: Bytes) {
    && (forall i | 0 <= i < |email| - 1 :: !(email[i] == ':' && email[i + 1] == ':'))
    && (email != [] ==> email[|email| - 1] != ':')
  }

  lemma {:induction false} SplitFindsTheSeparator(email: Bytes, redirect: Bytes)
    ensures var r := Split(email + "::" + redirect);
            && r.Some?
            && if SplitsCleanly(email) then r.value == Target(email, redirect) else |r.value.email| < |email|
  {
    var s := email + "::" + redirect;
    if email == [] {
      assert s == "::" + redirect;
    } else {
      SplitFindsTheSeparator(email[1..], redirect);
      assert s[1..] == email[1..] + "::" + redirect;
      assert [email[0]] + email[1..] == email;
      if s[..2] == "::" {
        assert s[0] == ':' && s[1] == ':';
        assert !SplitsCleanly(email);
      } else {
        assert SplitsCleanly(email) <==> SplitsCleanly(email[1..]) by {
          CleanTail(email, redirect);
        }
      }
    }
  }

  lemma CleanTail(email: Bytes, redirect: Bytes)
    requires email != [] && (email + "::" + redirect)[..2] != "::"
    ensures SplitsCleanly(email) <==> SplitsCleanly(email[1..])
  {
    var s := email + "::" + redirect;
    assert s[..2] == [s[0], s[1]];
    if SplitsCleanly(email[1..]) {
      forall i | 0 <= i < |email| - 1
        ensures !(email[i] == ':' && email[i + 1] == ':')
      {
        assert i > 0 ==> email[1..][i - 1] == email[i];
      }
    }
  }

  /** Reading a printed target returns its email and redirect exactly if the email has no "::" in it and does not end
    * in ":"; the redirect comes back if it is a local path. */
  lemma TargetRoundTrip(email: Bytes, redirect: Bytes)
    ensures Base64Url.Decode(Print(email, redirect), false) == Some(email + "::" + redirect)
    ensures Parse(Print(email, redirect)) == Target(email, redirect) <==> SplitsCleanly(email)
    ensures Read(Print(email, redirect)) == Target(email, redirect) <==> SplitsCleanly(email) && IsLocalPath(redirect)
  {
    Base64Url.DecodeInvertsEncode(email + "::" + redirect, false);
    SplitFindsTheSeparator(email, redirect);
  }

  /** The two payload formats cannot be confused: a printed target is never taken for a plain path, and a plain path is
    * never taken for a printed target. */
  lemma FormatsAreDisjoint(email: Bytes, redirect: Bytes, path: Bytes)
    requires "/" <= path
    ensures !IsLegacy(Print(email, redirect))
    ensures IsLegacy(path) && Parse(path) == Target([], path)
  {
    Base64Url.DecodeInvertsEncode(email + "::" + redirect, false);
    var s := Base64Url.WithoutLineBreaks(path);
    assert s[0] == '/' && Base64Url.Value(s[0]).None?;
    assert |s| > 4 ==> Base64Url.Quantum(s[..4]).None?;
  }

  lemma {:induction false} SplitNeedsASeparator(s: Bytes)
    ensures Split(s).None? <==> forall i | 0 <= i < |s| - 1 :: !(s[i] == ':' && s[i + 1] == ':')
  {
    if |s| >= 2 {
      assert s[..2] == [s[0], s[1]];
      SplitNeedsASeparator(s[1..]);
      if Split(s).None? {
        forall i | 0 <= i < |s| - 1
          ensures !(s[i] == ':' && s[i + 1] == ':')
        {
          assert i > 0 ==> s[1..][i - 1] == s[i] && s[1..][i] == s[i + 1];
        }
      }
    }
  }

  /** A payload that decodes to text without a separator stands for nobody and no path. */
  lemma PayloadsWithoutSeparator(s: Bytes)
    requires forall i | 0 <= i < |s| - 1 :: !(s[i] == ':' && s[i + 1] == ':')
    ensures Read(Base64Url.Encode(s, false)) == Target([], "/admin/ops")
  {
    Base64Url.DecodeInvertsEncode(s, false);
    SplitNeedsASeparator(s);
    FallbackIsLocal();
  }
}

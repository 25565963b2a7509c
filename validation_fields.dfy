/** The custom fields of metaclass/validation/fields.py.

    `BaseField` is an abstract class whose one obligation is `validate()`;
    a field here is a value that knows its verdict. The only concrete field
    of the source, `URL`, keeps the string it was built with and validates it
    with the regular expression `https?://(?:www\.)?[a-zA-Z0-9./]+` applied by
    `re.match`, which anchors at the start of the string only. */
module ValidationFields {

  /** The character class `[a-zA-Z0-9./]`. */
  predicate IsUrlChar(ch: char) {
    || 'a' <= ch <= 'z'
    || 'A' <= ch <= 'Z'
    || '0' <= ch <= '9'
    || ch == '.'
    || ch == '/'
  }

  predicate HasPrefix(s: string, p: string) {
    |p| <= |s| && s[..|p|] == p
  }

  /** `[a-zA-Z0-9./]+` matched at the start of `s`: the greedy repetition can
      always stop after one character, so one suffices. */
  predicate MatchesClassRun(s: string) {
    |s| >= 1 && IsUrlChar(s[0])
  }

  /** `(?:www\.)?[a-zA-Z0-9./]+` at the start of `s`: the optional group is
      tried first and, if the rest then fails, skipped. */
  predicate MatchesHost(s: string) {
    (HasPrefix(s, "www.") && MatchesClassRun(s[4..])) || MatchesClassRun(s)
  }

  /** The whole pattern at the start of `s`: `http`, an optional `s`, `://`,
      then the host part. The shortest match, `http://` and one class
      character, has 8 characters. */
  function MatchesUrlPattern(s: string): (matched: bool)
    ensures matched ==> 8 <= |s|
  {
    && HasPrefix(s, "http")
    && var rest := if |s| > 4 && s[4] == 's' then s[5..] else s[4..];
       HasPrefix(rest, "://") && MatchesHost(rest[3..])
  }

  /** The optional `www.` group never changes the verdict: its characters are
      all in the class, so whatever follows it the class run matches too. */
  lemma HostIgnoresWww(s: string)
    ensures MatchesHost(s) <==> MatchesClassRun(s)
  {
    if HasPrefix(s, "www.") {
      assert s[0] == 'w';
    }
  }

  lemma PrefixConcat(s: string, p: string, q: string)
    ensures HasPrefix(s, p + q) <==> HasPrefix(s, p) && HasPrefix(s[|p|..], q)
  {
    if |p| + |q| <= |s| {
      assert s[..|p| + |q|] == s[..|p|] + s[|p|..][..|q|];
      if s[..|p| + |q|] == p + q {
        assert s[..|p|] == (p + q)[..|p|] == p;
        assert s[|p|..][..|q|] == (p + q)[|p|..] == q;
      }
    } else if |p| <= |s| {
      assert |s[|p|..]| < |q|;
    }
  }

  /** What the pattern accepts, said without the regular expression. */
  lemma UrlPatternMeaning(s: string)
    ensures MatchesUrlPattern(s) <==>
      || (HasPrefix(s, "http://") && |s| > 7 && IsUrlChar(s[7]))
      || (HasPrefix(s, "https://") && |s| > 8 && IsUrlChar(s[8]))
  {
    PrefixConcat(s, "http", "://");
    PrefixConcat(s, "http", "s://");
    if |s| >= 4 {
      PrefixConcat(s[4..], "s", "://");
      if |s| > 4 {
        assert s[4..][1..] == s[5..];
        assert HasPrefix(s[4..], "s") <==> s[4] == 's';
      }
      if HasPrefix(s[4..], "://") {
        HostIgnoresWww(s[7..]);
        assert s[4..][3..] == s[7..];
      }
      if |s| >= 5 && HasPrefix(s[5..], "://") {
        HostIgnoresWww(s[8..]);
        assert s[5..][3..] == s[8..];
      }
    }
  }

  /** A `URL` field: `URL(url)` stores `url` and nothing else. */
  datatype Url = Url(url: string) {

    /** `validate`: true exactly when the string starts with `http://` or
        `https://` followed by at least one character of the class. */
    function Validate(): (ok: bool)
      ensures ok <==>
        || (HasPrefix(url, "http://") && |url| > 7 && IsUrlChar(url[7]))
        || (HasPrefix(url, "https://") && |url| > 8 && IsUrlChar(url[8]))
    {
      UrlPatternMeaning(url);
      MatchesUrlPattern(url)
    }

    /** `__repr__`: the stored string itself. */
    function Repr(): string {
      url
    }
  }

  /** The match is anchored at the start only: whatever follows a valid
      prefix is never looked at. */
  lemma {:induction false} TrailingTextIgnored(s: string, tail: string)
    requires Url(s).Validate()
    ensures Url(s + tail).Validate()
  {
    var t := s + tail;
    assert t[..|s|] == s;
    if HasPrefix(s, "https://") && |s| > 8 {
      assert t[..8] == s[..8];
      assert t[8] == s[8];
    } else {
      assert t[..7] == s[..7];
      assert t[7] == s[7];
    }
  }

  /** The address metaclass/tests/validation/test_model.py builds its valid
      `URL` from. */
  lemma LocalAddressAccepted()
    ensures Url("http://127.0.0.1").Validate()
  {
    assert "http://127.0.0.1"[..7] == "http://" && "http://127.0.0.1"[7] == '1';
  }

  /** Trailing text after a valid start, here a space, is not looked at. */
  lemma TrailingSpaceAccepted()
    ensures Url("http://a b").Validate()
  {
    assert "http://a b"[..7] == "http://" && "http://a b"[7] == 'a';
  }

  /** `https` and the `www.` group. */
  lemma SecureAddressAccepted()
    ensures Url("https://www.example.org").Validate()
  {
    assert "https://www.example.org"[..8] == "https://" && "https://www.example.org"[8] == 'w';
  }

  /** The text metaclass/tests/validation/test_model.py builds its invalid
      `URL` from. */
  lemma PlainTextRejected()
    ensures !Url("I am not a url").Validate()
  {
    assert "I am not a url"[0] == 'I';
  }

  /** The scheme with nothing after it. */
  lemma BareSchemeRejected()
    ensures !Url("http://").Validate()
  {
    assert |"http://"| == 7;
  }

  /** An upper-case scheme: the pattern is case-sensitive. */
  lemma UpperCaseSchemeRejected()
    ensures !Url("HTTP://x").Validate()
  {
    assert "HTTP://x"[0] == 'H';
  }

  /** A value of a `BaseField` subclass: a `URL`, or a field of another
      subclass whose `validate()` verdict and text are carried along. */
  datatype Field =
    | UrlField(u: Url)
    | OtherField(className: string, verdict: bool, text: string)
  {
    /** `validate()` of the field's own class. */
    predicate Validate() {
      match this
      case UrlField(u) => u.Validate()
      case OtherField(_, verdict, _) => verdict
    }

    /** What `str()` of the field prints. */
    function Text(): string {
      match this
      case UrlField(u) => u.Repr()
      case OtherField(_, _, text) => text
    }
  }
}

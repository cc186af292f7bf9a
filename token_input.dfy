/** The token entry form: `String.prototype.trim`, the submit guard, and the form's two
    pieces of state (the field's text and whether it is shown in clear). */
module TokenInput {
  import opened Wrappers

  /** ECMAScript WhiteSpace and LineTerminator code points: the ones `trim` removes. */
  predicate IsWhitespace(c: char) {
    c == '\t' || c == '\n' || c == '\U{000B}' || c == '\U{000C}' || c == '\r' || c == ' '
    || c == '\U{00A0}' || c == '\U{1680}' || ('\U{2000}' <= c <= '\U{200A}')
    || c == '\U{2028}' || c == '\U{2029}' || c == '\U{202F}' || c == '\U{205F}'
    || c == '\U{3000}' || c == '\U{FEFF}'
  }

  predicate AllWhitespace(s: string) {
    forall i :: 0 <= i < |s| ==> IsWhitespace(s[i])
  }

  /** Neither the first nor the last character is whitespace. */
  predicate IsTrimmed(s: string) {
    s == [] || (!IsWhitespace(s[0]) && !IsWhitespace(s[|s| - 1]))
  }

  /** Drops the leading whitespace: what remains is a suffix of `s` that does not start
      with whitespace, and everything dropped was whitespace. */
  function TrimStart(s: string): (r: string)
    ensures |r| <= |s| && r == s[|s| - |r|..]
    ensures r == [] || !IsWhitespace(r[0])
    ensures AllWhitespace(s[..|s| - |r|])
  {
    if s != [] && IsWhitespace(s[0]) then TrimStart(s[1..]) else s
  }

  /** Drops the trailing whitespace: what remains is a prefix of `s` that does not end
      with whitespace, and everything dropped was whitespace. */
  function TrimEnd(s: string): (r: string)
    ensures |r| <= |s| && r == s[..|r|]
    ensures r == [] || !IsWhitespace(r[|r| - 1])
    ensures AllWhitespace(s[|r|..])
  {
    if s != [] && IsWhitespace(s[|s| - 1]) then TrimEnd(s[..|s| - 1]) else s
  }

  /** `s.trim()`: a contiguous piece of `s` with no whitespace at either end, obtained by
      removing only whitespace from the two ends. */
  function Trim(s: string): (r: string)
    ensures IsTrimmed(r)
    ensures exists i, j :: 0 <= i <= j <= |s| && r == s[i..j]
                           && AllWhitespace(s[..i]) && AllWhitespace(s[j..])
  {
    var t := TrimStart(s);
    var r := TrimEnd(t);
    var i := |s| - |t|;
    var j := i + |r|;
    assert r == s[i..j];
    assert IsTrimmed(r) by {
      if r != [] {
        assert r[0] == t[0];
      }
    }
    assert AllWhitespace(s[j..]) by {
      assert s[j..] == t[|r|..];
    }
    r
  }

  /** Removing leading then trailing whitespace leaves nothing exactly when there is
      nothing but whitespace. */
  lemma TrimEmptyIff(s: string)
    ensures Trim(s) == [] <==> AllWhitespace(s)
  {
  }

  /** A string already without surrounding whitespace is left as it is. */
  lemma TrimOfTrimmed(s: string)
    requires IsTrimmed(s)
    ensures Trim(s) == s
  {
  }

  /** Trimming twice is trimming once. */
  lemma TrimIdempotent(s: string)
    ensures Trim(Trim(s)) == Trim(s)
  {
  }

  /** `handleSubmit`: the trimmed field value, when it is non-empty, is what the form
      hands to `onTokenSubmit`; otherwise nothing is submitted. */
  function SubmittedToken(field: string): Option<string> {
    var t := Trim(field);
    if t != "" then Some(t) else None
  }

  /** The guard and what passes it: a token is submitted exactly when the field holds a
      non-whitespace character, and a submitted token is non-empty, has no whitespace at
      either end, and is a contiguous piece of the field. */
  lemma SubmitGuard(field: string)
    ensures SubmittedToken(field).Some? <==> exists k :: 0 <= k < |field| && !IsWhitespace(field[k])
    ensures SubmittedToken(field).Some? ==>
      var t := SubmittedToken(field).value;
      t != "" && IsTrimmed(t) &&
      exists i, j :: 0 <= i <= j <= |field| && t == field[i..j]
  {
  }

  /** Submitting a field that already holds a clean token submits that token unchanged. */
  lemma SubmitCleanToken(field: string)
    requires field != "" && IsTrimmed(field)
    ensures SubmittedToken(field) == Some(field)
  {
  }

  /** The form's state: the field's text, whether it is shown in clear, and the
      `initialToken` property the field was last reset to. */
  class TokenForm {
    var token: string
    var isVisible: bool
    var initialToken: string

    /** Mounting: the field starts as `initialToken`, hidden. */
    constructor (initialToken: string)
      ensures token == initialToken && !isVisible && this.initialToken == initialToken
    {
      token := initialToken;
      isVisible := false;
      this.initialToken := initialToken;
    }

    /** Typing into the field. */
    method OnChange(value: string)
      modifies this`token
      ensures token == value
    {
      token := value;
    }

    /** The Show/Hide button: flips visibility and leaves the text alone. */
    method ToggleVisibility()
      modifies this`isVisible
      ensures isVisible == !old(isVisible)
    {
      isVisible := !isVisible;
    }

    /** A re-render with the given `initialToken`: the effect resets the field only when the
        property differs from the one it last saw. */
    method Rerender(newInitialToken: string)
      modifies this`token, this`initialToken
      ensures initialToken == newInitialToken
      ensures token == if newInitialToken != old(initialToken) then newInitialToken else old(token)
    {
      if newInitialToken != initialToken {
        initialToken := newInitialToken;
        token := newInitialToken;
      }
    }

    /** Submitting the form: what is handed to `onTokenSubmit`, if anything. */
    method HandleSubmit() returns (submitted: Option<string>)
      ensures submitted == SubmittedToken(token)
      ensures submitted.Some? <==> !AllWhitespace(token)
      ensures submitted.Some? ==> submitted.value == Trim(token) && submitted.value != ""
    {
      TrimEmptyIff(token);
      var t := Trim(token);
      if t != "" {
        submitted := Some(t);
      } else {
        submitted := None;
      }
    }
  }

  /** Toggling twice restores the visibility, and neither toggle touches the text. */
  method ToggleTwice(f: TokenForm)
    modifies f`isVisible
    ensures f.isVisible == old(f.isVisible) && f.token == old(f.token)
  {
    f.ToggleVisibility();
    f.ToggleVisibility();
  }
}

/** The string rules inside the prompts of `src/utils.ts`: the access token
    is required and trimmed; the output directory must start with `/`, and is
    trimmed and has its runs of slashes collapsed. The prompting itself (the
    terminal, the confirm loop) is not modelled. */
module Prompts {
  import opened Text

  /** What a `validate` callback of `prompts` returns: `true`, or the message
      to show. */
  datatype Validation = Accepted | Rejected(message: string)

  // ---------------------------------------------------------------------------
  // getAccessToken
  // ---------------------------------------------------------------------------

  /** The `validate` of `getAccessToken`: the trimmed value must not be
      empty. */
  function ValidateAccessToken(value: string): (v: Validation)
    ensures v.Rejected? ==> v.message == "Access token is required"
  {
    if Trim(value) != [] then Accepted else Rejected("Access token is required")
  }

  /** A token is accepted exactly when it has a character that is not white
      space. */
  lemma ValidateAccessTokenIff(value: string)
    ensures ValidateAccessToken(value) == Accepted
            <==> exists i :: 0 <= i < |value| && !IsWhitespace(value[i])
  {
    TrimEmptyIff(value);
  }

  /** The token `getAccessToken` returns. */
  function AccessTokenOf(value: string): (token: string)
    ensures |token| <= |value|
  {
    Trim(value)
  }

  /** An accepted token is non-empty, has no white space at either end, and
      trimming it again changes nothing; `TrimIsSlice` says it is the value
      with only the white space at its two ends cut off. */
  lemma AccessTokenOfAccepted(value: string)
    requires ValidateAccessToken(value) == Accepted
    ensures var token := AccessTokenOf(value);
            && token != [] && !IsWhitespace(token[0]) && !IsWhitespace(token[|token| - 1])
            && Trim(token) == token
  {
    TrimIdempotent(value);
  }

  // ---------------------------------------------------------------------------
  // promptOutputDir
  // ---------------------------------------------------------------------------

  /** The `validate` of `promptOutputDir`. The emptiness test trims; the
      prefix test looks at the value as typed. */
  function ValidateOutputDir(value: string): (v: Validation)
    ensures v.Rejected? ==> v.message in {"Output directory is required", "Output directory must start with /"}
  {
    if Trim(value) == [] then Rejected("Output directory is required")
    else if !(|value| > 0 && value[0] == '/') then Rejected("Output directory must start with /")
    else Accepted
  }

  /** A directory is accepted exactly when it starts with `/`: a value with
      leading white space is refused even though its trimmed form would
      pass. */
  lemma ValidateOutputDirIff(value: string)
    ensures ValidateOutputDir(value) == Accepted <==> |value| > 0 && value[0] == '/'
  {
    if |value| > 0 && value[0] == '/' {
      TrimKeeps(value, 0);
    }
  }

  /** The "required" message is shown exactly for a value of white space
      only. */
  lemma ValidateOutputDirRequired(value: string)
    ensures ValidateOutputDir(value) == Rejected("Output directory is required")
            <==> forall i :: 0 <= i < |value| ==> IsWhitespace(value[i])
  {
    TrimEmptyIff(value);
  }

  /** No slash is directly followed by another. */
  predicate NoDoubleSlash(s: string)
  {
    forall i :: 0 <= i < |s| - 1 ==> !(s[i] == '/' && s[i + 1] == '/')
  }

  /** `s.replace(/\/{2,}/g, '/')`: every run of two or more slashes becomes a
      single slash. The run is shortened from its front, one slash at a
      time, so that its last slash is the one left. */
  function CollapseSlashes(s: string): (r: string)
    ensures |r| <= |s|
    decreases |s|
  {
    if |s| <= 1 then s
    else if s[0] == '/' && s[1] == '/' then CollapseSlashes(s[1..])
    else [s[0]] + CollapseSlashes(s[1..])
  }

  /** The first and the last character survive the collapse. */
  lemma {:induction false} CollapseSlashesEnds(s: string)
    requires s != []
    ensures var r := CollapseSlashes(s);
            r != [] && r[0] == s[0] && r[|r| - 1] == s[|s| - 1]
    decreases |s|
  {
    if |s| > 1 {
      CollapseSlashesEnds(s[1..]);
    }
  }

  /** No `//` is left. */
  lemma {:induction false} CollapseSlashesNoDouble(s: string)
    ensures NoDoubleSlash(CollapseSlashes(s))
    decreases |s|
  {
    if |s| > 1 {
      CollapseSlashesNoDouble(s[1..]);
      if !(s[0] == '/' && s[1] == '/') {
        CollapseSlashesEnds(s[1..]);
        var rest := CollapseSlashes(s[1..]);
        assert forall i :: 1 <= i < |rest| ==> ([s[0]] + rest)[i] == rest[i - 1];
      }
    }
  }

  /** A string without `//` is left as it is. */
  lemma {:induction false} CollapseSlashesFixpoint(s: string)
    requires NoDoubleSlash(s)
    ensures CollapseSlashes(s) == s
    decreases |s|
  {
    if |s| > 1 {
      assert !(s[0] == '/' && s[1] == '/');
      assert NoDoubleSlash(s[1..]) by {
        forall i | 0 <= i < |s[1..]| - 1
          ensures !(s[1..][i] == '/' && s[1..][i + 1] == '/')
        {
          assert s[1..][i] == s[i + 1] && s[1..][i + 1] == s[i + 2];
        }
      }
      CollapseSlashesFixpoint(s[1..]);
      assert s == [s[0]] + s[1..];
    }
  }

  /** The collapse changes a string exactly when it has a `//`, so applying
      it twice is applying it once. */
  lemma CollapseSlashesIdentityIff(s: string)
    ensures CollapseSlashes(s) == s <==> NoDoubleSlash(s)
  {
    CollapseSlashesNoDouble(s);
    if NoDoubleSlash(s) {
      CollapseSlashesFixpoint(s);
    }
  }

  lemma CollapseSlashesIdempotent(s: string)
    ensures CollapseSlashes(CollapseSlashes(s)) == CollapseSlashes(s)
  {
    CollapseSlashesNoDouble(s);
    CollapseSlashesFixpoint(CollapseSlashes(s));
  }

  /** The characters other than `/`, in order. */
  function NonSlashes(s: string): string
    decreases |s|
  {
    if s == [] then [] else (if s[0] == '/' then [] else [s[0]]) + NonSlashes(s[1..])
  }

  /** Only slashes are removed: the other characters are kept, in order. */
  lemma {:induction false} CollapseSlashesKeepsText(s: string)
    ensures NonSlashes(CollapseSlashes(s)) == NonSlashes(s)
    decreases |s|
  {
    if |s| > 1 {
      CollapseSlashesKeepsText(s[1..]);
      if !(s[0] == '/' && s[1] == '/') {
        var rest := CollapseSlashes(s[1..]);
        assert ([s[0]] + rest)[1..] == rest;
      }
    }
  }

  /** Removing one slash of a `//` does not change the result. With
      `CollapseSlashesFixpoint` this pins the function down: removing slashes
      from `//` pairs until none is left reaches the collapse. */
  lemma {:induction false} CollapseSlashesDropOne(x: string, y: string)
    ensures CollapseSlashes(x + "//" + y) == CollapseSlashes(x + "/" + y)
    decreases |x|
  {
    var s, s' := x + "//" + y, x + "/" + y;
    if x != [] {
      CollapseSlashesDropOne(x[1..], y);
      assert s[1..] == x[1..] + "//" + y;
      assert s'[1..] == x[1..] + "/" + y;
      assert s[0] == s'[0] && s[1] == s'[1];
    } else {
      assert s[1..] == s';
    }
  }

  /** The directory `promptOutputDir` settles on for an input. */
  function NormaliseOutputDir(value: string): (dir: string)
    ensures |dir| <= |value|
  {
    CollapseSlashes(Trim(value))
  }

  /** An accepted directory normalises to a string that still starts with
      `/`, has no `//` and no white space at its end, and that normalising
      again leaves unchanged. */
  lemma NormaliseOutputDirAccepted(value: string)
    requires ValidateOutputDir(value) == Accepted
    ensures var dir := NormaliseOutputDir(value);
            && dir != [] && dir[0] == '/'
            && NoDoubleSlash(dir)
            && !IsWhitespace(dir[|dir| - 1])
            && NormaliseOutputDir(dir) == dir
  {
    var t := Trim(value);
    TrimIsSlice(value);
    assert TrimStart(value) == value;
    assert t != [] && t[0] == '/';
    CollapseSlashesEnds(t);
    CollapseSlashesNoDouble(t);
    var dir := CollapseSlashes(t);
    TrimNoop(dir);
    CollapseSlashesFixpoint(dir);
  }
}

/**
 * The project settings dialog: the slug generated from the project name, the
 * name/slug schema, and the state the availability check leaves behind.
 */
module ProjectSettings {
  import opened Wrappers

  /** The characters a slug keeps: `[a-z0-9]`. */
  predicate SlugChar(c: char) {
    'a' <= c <= 'z' || '0' <= c <= '9'
  }

  /** `toLowerCase()` on the ASCII capitals; every other character is left as it is. */
  function LowerChar(c: char): (l: char)
    ensures 'A' <= c <= 'Z' ==> 'a' <= l <= 'z'
    ensures !('A' <= c <= 'Z') ==> l == c
  {
    if 'A' <= c <= 'Z' then (c as int + 32) as char else c
  }

  function Lower(s: string): (l: string)
    ensures |l| == |s|
  {
    if s == [] then [] else [LowerChar(s[0])] + Lower(s[1..])
  }

  /** Lowercasing works character by character. */
  lemma {:induction false} LowerEach(s: string)
    ensures forall i :: 0 <= i < |s| ==> Lower(s)[i] == LowerChar(s[i])
  {
    if s != [] {
      LowerEach(s[1..]);
      assert forall i :: 1 <= i < |s| ==> Lower(s)[i] == Lower(s[1..])[i - 1];
    }
  }

  /** Drops the run of non-slug characters at the front of `s`. */
  function SkipRun(s: string): (r: string)
    ensures |r| <= |s|
    ensures r == [] || SlugChar(r[0])
  {
    if s == [] || SlugChar(s[0]) then s else SkipRun(s[1..])
  }

  /** `replace(/[^a-z0-9]+/g, "-")`: each maximal run outside `[a-z0-9]` becomes one "-". */
  function Dashify(s: string): (r: string)
    ensures |r| <= |s|
    ensures s != [] ==> r != []
    decreases |s|
  {
    if s == [] then []
    else if SlugChar(s[0]) then [s[0]] + Dashify(s[1..])
    else "-" + Dashify(SkipRun(s[1..]))
  }

  /** The leading "-" characters removed (`^-+`). */
  function TrimStart(s: string): (r: string)
    ensures |r| <= |s|
    ensures r == [] || r[0] != '-'
  {
    if s != [] && s[0] == '-' then TrimStart(s[1..]) else s
  }

  /** The trailing "-" characters removed (`-+$`). */
  function TrimEnd(s: string): (r: string)
    ensures |r| <= |s|
    ensures r == [] || r[|r| - 1] != '-'
  {
    if s != [] && s[|s| - 1] == '-' then TrimEnd(s[..|s| - 1]) else s
  }

  /**
   * The slug the dialog derives from a project name. It is always well
   * formed, and its non-dash characters are exactly the `[a-z0-9]`
   * characters of the lowercased name, in order.
   */
  function GenerateSlug(name: string): (slug: string)
    ensures IsSlug(slug)
    ensures Kept(slug) == Kept(Lower(name))
  {
    var d := Dashify(Lower(name));
    DashifyShape(Lower(name));
    DashifyKeeps(Lower(name));
    TrimIsSlug(d);
    TrimStartKeeps(d);
    TrimEndKeeps(TrimStart(d));
    TrimEnd(TrimStart(d))
  }

  predicate SlugChars(s: string) {
    forall i :: 0 <= i < |s| ==> SlugChar(s[i]) || s[i] == '-'
  }

  predicate NoDoubleDash(s: string) {
    forall i :: 0 <= i < |s| - 1 ==> !(s[i] == '-' && s[i + 1] == '-')
  }

  /** A well-formed slug: only `[a-z0-9-]`, no "-" at either end, never "--". */
  predicate IsSlug(s: string) {
    SlugChars(s) && NoDoubleDash(s) && (s == [] || (s[0] != '-' && s[|s| - 1] != '-'))
  }

  /** The one-character contribution of `c` to `Kept`. */
  function KeptChar(c: char): string {
    if SlugChar(c) then [c] else []
  }

  /** The characters of `s` that a slug keeps, in order. */
  function Kept(s: string): (k: string)
    ensures |k| <= |s|
  {
    if s == [] then [] else KeptChar(s[0]) + Kept(s[1..])
  }

  lemma {:induction false} KeptAppend(a: string, b: string)
    ensures Kept(a + b) == Kept(a) + Kept(b)
  {
    if a == [] {
      assert a + b == b;
    } else {
      var ab := a + b;
      assert ab[0] == a[0];
      assert ab[1..] == a[1..] + b;
      KeptAppend(a[1..], b);
      calc {
        Kept(ab);
        KeptChar(a[0]) + Kept(a[1..] + b);
        KeptChar(a[0]) + (Kept(a[1..]) + Kept(b));
        (KeptChar(a[0]) + Kept(a[1..])) + Kept(b);
      }
    }
  }

  lemma {:induction false} KeptSkipped(s: string)
    ensures Kept(s) == Kept(SkipRun(s))
  {
    if s != [] && !SlugChar(s[0]) {
      KeptSkipped(s[1..]);
    }
  }

  /** Putting a kept character, or a dash before a non-dash, in front keeps a string well formed. */
  lemma ConsShape(c: char, rest: string)
    requires SlugChar(c) || c == '-'
    requires SlugChars(rest) && NoDoubleDash(rest)
    requires c == '-' ==> rest == [] || rest[0] != '-'
    ensures SlugChars([c] + rest) && NoDoubleDash([c] + rest)
  {
    var r := [c] + rest;
    assert forall i :: 1 <= i < |r| ==> r[i] == rest[i - 1];
  }

  /** Dashify writes kept characters and single dashes only, and starts with `s`'s first character when that is kept. */
  lemma {:induction false} DashifyShape(s: string)
    ensures SlugChars(Dashify(s)) && NoDoubleDash(Dashify(s))
    ensures s != [] ==> Dashify(s) != []
    ensures s != [] && SlugChar(s[0]) ==> Dashify(s)[0] == s[0]
    decreases |s|
  {
    if s == [] {
    } else if SlugChar(s[0]) {
      DashifyShape(s[1..]);
      ConsShape(s[0], Dashify(s[1..]));
    } else {
      var t := SkipRun(s[1..]);
      DashifyShape(t);
      ConsShape('-', Dashify(t));
      assert Dashify(s) == ['-'] + Dashify(t);
    }
  }

  /** Every slice of a string of kept characters and single dashes is one too. */
  lemma SliceShape(d: string, lo: int, hi: int)
    requires 0 <= lo <= hi <= |d|
    requires SlugChars(d) && NoDoubleDash(d)
    ensures SlugChars(d[lo..hi]) && NoDoubleDash(d[lo..hi])
  {
    assert forall i :: 0 <= i < hi - lo ==> d[lo..hi][i] == d[lo + i];
  }

  /** Dashify keeps every `[a-z0-9]` character of `s`, in order, and adds none. */
  lemma {:induction false} DashifyKeeps(s: string)
    ensures Kept(Dashify(s)) == Kept(s)
    decreases |s|
  {
    if s == [] {
    } else if SlugChar(s[0]) {
      DashifyKeeps(s[1..]);
      KeptAppend([s[0]], Dashify(s[1..]));
      assert Kept([s[0]]) == [s[0]] by { assert [s[0]][1..] == []; }
    } else {
      var t := SkipRun(s[1..]);
      DashifyKeeps(t);
      KeptSkipped(s[1..]);
      KeptAppend("-", Dashify(t));
      assert Kept("-") == [] by { assert "-"[1..] == []; }
    }
  }

  /** After trimming, neither end is a dash. */
  lemma TrimEnds(d: string)
    ensures var t := TrimEnd(TrimStart(d)); t == [] || (t[0] != '-' && t[|t| - 1] != '-')
  {
    TrimEndFirst(TrimStart(d));
  }

  /** Trimming trailing dashes leaves the first character of what remains in place. */
  lemma {:induction false} TrimEndFirst(s: string)
    ensures TrimEnd(s) != [] ==> TrimEnd(s)[0] == s[0]
  {
    if s != [] && s[|s| - 1] == '-' {
      TrimEndFirst(s[..|s| - 1]);
    }
  }

  /** Trimming leading dashes keeps a string of kept characters and single dashes one. */
  lemma {:induction false} TrimStartShape(s: string)
    requires SlugChars(s) && NoDoubleDash(s)
    ensures SlugChars(TrimStart(s)) && NoDoubleDash(TrimStart(s))
  {
    if s != [] && s[0] == '-' {
      SliceShape(s, 1, |s|);
      TrimStartShape(s[1..]);
    }
  }

  /** Trimming trailing dashes keeps a string of kept characters and single dashes one. */
  lemma {:induction false} TrimEndShape(s: string)
    requires SlugChars(s) && NoDoubleDash(s)
    ensures SlugChars(TrimEnd(s)) && NoDoubleDash(TrimEnd(s))
  {
    if s != [] && s[|s| - 1] == '-' {
      SliceShape(s, 0, |s| - 1);
      TrimEndShape(s[..|s| - 1]);
    }
  }

  /** TrimStart removes exactly the leading run of dashes: what it returns is a suffix, and all it drops is "-". */
  lemma {:induction false} TrimStartDrops(s: string)
    ensures var r := TrimStart(s);
            r == s[|s| - |r|..] && forall i :: 0 <= i < |s| - |r| ==> s[i] == '-'
  {
    if s != [] && s[0] == '-' {
      TrimStartDrops(s[1..]);
      var r := TrimStart(s);
      assert forall i :: 1 <= i < |s| - |r| ==> s[i] == s[1..][i - 1];
    }
  }

  /** TrimEnd removes exactly the trailing run of dashes: what it returns is a prefix, and all it drops is "-". */
  lemma {:induction false} TrimEndDrops(s: string)
    ensures var r := TrimEnd(s);
            r == s[..|r|] && forall i :: |r| <= i < |s| ==> s[i] == '-'
  {
    if s != [] && s[|s| - 1] == '-' {
      TrimEndDrops(s[..|s| - 1]);
    }
  }

  /** Skipping a run that ends before a kept character distributes over what follows. */
  lemma {:induction false} SkipRunAppend(s: string, x: string)
    requires s != [] && SlugChar(s[|s| - 1])
    ensures SkipRun(s + x) == SkipRun(s) + x
    ensures SkipRun(s) != [] && SlugChar(SkipRun(s)[|SkipRun(s)| - 1])
    ensures |SkipRun(s)| <= |s|
  {
    assert (s + x)[0] == s[0];
    if !SlugChar(s[0]) {
      assert (s + x)[1..] == s[1..] + x;
      SkipRunAppend(s[1..], x);
    }
  }

  /** A whole run of non-kept characters is skipped, up to a kept character or the end. */
  lemma {:induction false} SkipRunOver(w: string, b: string)
    requires forall i :: 0 <= i < |w| ==> !SlugChar(w[i])
    requires b == [] || SlugChar(b[0])
    ensures SkipRun(w + b) == b
  {
    if w == [] {
      assert w + b == b;
    } else {
      assert (w + b)[0] == w[0];
      assert (w + b)[1..] == w[1..] + b;
      SkipRunOver(w[1..], b);
    }
  }

  /** Dashify works piecewise after a kept character. */
  lemma {:induction false} DashifyAppend(a: string, x: string)
    requires a == [] || SlugChar(a[|a| - 1])
    ensures Dashify(a + x) == Dashify(a) + Dashify(x)
    decreases |a|
  {
    if a == [] {
      assert a + x == x;
    } else {
      var ax := a + x;
      assert ax[0] == a[0];
      assert ax[1..] == a[1..] + x;
      if SlugChar(a[0]) {
        DashifyAppend(a[1..], x);
      } else {
        SkipRunAppend(a[1..], x);
        DashifyAppend(SkipRun(a[1..]), x);
      }
    }
  }

  /** A run of characters outside `[a-z0-9]` between two kept characters becomes exactly one "-". */
  lemma DashifySeparates(a: string, w: string, b: string)
    requires a != [] && SlugChar(a[|a| - 1])
    requires w != [] && forall i :: 0 <= i < |w| ==> !SlugChar(w[i])
    requires b != [] && SlugChar(b[0])
    ensures Dashify(a + w + b) == Dashify(a) + "-" + Dashify(b)
  {
    assert a + w + b == a + (w + b);
    DashifyAppend(a, w + b);
    assert (w + b)[0] == w[0];
    assert (w + b)[1..] == w[1..] + b;
    SkipRunOver(w[1..], b);
  }

  /** Trimming the dashes at both ends of a string of kept characters and single dashes leaves a well-formed slug. */
  lemma TrimIsSlug(d: string)
    requires SlugChars(d) && NoDoubleDash(d)
    ensures IsSlug(TrimEnd(TrimStart(d)))
  {
    TrimStartShape(d);
    TrimEndShape(TrimStart(d));
    TrimEnds(d);
  }

  /** Trimming leading dashes removes no kept character. */
  lemma {:induction false} TrimStartKeeps(s: string)
    ensures Kept(TrimStart(s)) == Kept(s)
  {
    if s != [] && s[0] == '-' {
      TrimStartKeeps(s[1..]);
    }
  }

  /** Trimming trailing dashes removes no kept character. */
  lemma {:induction false} TrimEndKeeps(s: string)
    ensures Kept(TrimEnd(s)) == Kept(s)
  {
    if s != [] && s[|s| - 1] == '-' {
      var init := s[..|s| - 1];
      TrimEndKeeps(init);
      assert s == init + "-";
      KeptAppend(init, "-");
      assert Kept("-") == [] by { assert "-"[1..] == []; }
    }
  }

  /** A string of `[a-z0-9-]` with no "--" passes through Dashify unchanged. */
  lemma {:induction false} DashifyFixes(s: string)
    requires SlugChars(s) && NoDoubleDash(s)
    ensures Dashify(s) == s
    decreases |s|
  {
    if s != [] {
      assert SlugChars(s[1..]) && NoDoubleDash(s[1..]) by {
        assert forall i :: 0 <= i < |s| - 1 ==> s[1..][i] == s[i + 1];
      }
      if SlugChar(s[0]) {
        DashifyFixes(s[1..]);
      } else {
        assert s[1..] == [] || SlugChar(s[1]);
        assert SkipRun(s[1..]) == s[1..];
        DashifyFixes(s[1..]);
        assert s == "-" + s[1..];
      }
    }
  }

  /** A well-formed slug is its own slug. */
  lemma SlugIsFixpoint(s: string)
    requires IsSlug(s)
    ensures GenerateSlug(s) == s
  {
    LowerEach(s);
    assert Lower(s) == s;
    DashifyFixes(s);
  }

  /** Generating a slug from a generated slug gives it back. */
  lemma GenerateIdempotent(name: string)
    ensures GenerateSlug(GenerateSlug(name)) == GenerateSlug(name)
  {
    SlugIsFixpoint(GenerateSlug(name));
  }

  /** `z.string().min(3).max(50)` for both the name and the slug. */
  predicate SchemaValid(name: string, slug: string) {
    3 <= |name| <= 50 && 3 <= |slug| <= 50
  }

  /** The answer of the slug availability server action, or a thrown call. */
  datatype Availability =
    | Answered(available: bool)   // `{ success: true, available }`
    | Refused                     // `{ success: false, message }`: no session, or the lookup failed
    | Unreachable                 // the call itself threw

  const TAKEN: string := "This project name is already taken"

  /** The state of the dialog's form and of its slug check. */
  class SettingsForm {
    var name: string
    var slug: string
    var slugError: Option<string>
    var slugValidated: bool
    var isCheckingSlug: bool
    /** The project's slug when the dialog was last opened. */
    var originalSlug: string
    /** The values `form.reset()` returns to. */
    var defaultName: string
    var defaultSlug: string

    /** The form as the dialog mounts it for the current project. */
    constructor (projectName: string, projectSlug: string)
      ensures name == defaultName == projectName
      ensures slug == defaultSlug == originalSlug == projectSlug
      ensures slugError == None && slugValidated && !isCheckingSlug
    {
      name, slug := projectName, projectSlug;
      defaultName, defaultSlug := projectName, projectSlug;
      originalSlug := projectSlug;
      slugError := None;
      slugValidated := true;
      isCheckingSlug := false;
    }

    /**
     * The effect run when the debounced name settles: the slug is regenerated,
     * accepted outright when it is the original one, and otherwise validated
     * only by an answer that does not say it is taken.
     */
    method GenerateAndCheckSlug(debouncedName: string, check: Availability)
      modifies this`slug, this`slugValidated, this`isCheckingSlug, this`slugError
      ensures if debouncedName == "" then
                slug == "" && !slugValidated && isCheckingSlug == old(isCheckingSlug) && slugError == old(slugError)
              else
                slug == GenerateSlug(debouncedName) && !isCheckingSlug
                && (slug == originalSlug ==> slugValidated && slugError == None)
                && (slug != originalSlug ==>
                      (slugValidated <==> check == Answered(true) || check.Refused?)
                      && slugError == (if check == Answered(false) then Some(TAKEN)
                                       else if check.Unreachable? then old(slugError) else None))
      ensures debouncedName == "" ==> !SubmitEnabled(false) && !SubmitEnabled(true)
      ensures debouncedName != "" && slug != originalSlug && (check == Answered(false) || check.Unreachable?) ==>
                !SubmitEnabled(false) && !SubmitEnabled(true)
    {
      if debouncedName == "" {
        slug := "";
        slugValidated := false;
        return;
      }
      isCheckingSlug := true;
      var generated := GenerateSlug(debouncedName);
      slug := generated;
      if generated == originalSlug {
        slugValidated := true;
        slugError := None;
        isCheckingSlug := false;
        return;
      }
      slugValidated := false;
      RecordAnswer(check);
      isCheckingSlug := false;
    }

    /** The `try` block after the availability call, and its `catch`. */
    method RecordAnswer(check: Availability)
      modifies this`slugValidated, this`slugError
      ensures slugValidated <==> check == Answered(true) || check.Refused?
      ensures slugError == (if check == Answered(false) then Some(TAKEN)
                            else if check.Unreachable? then old(slugError) else None)
    {
      match check {
        case Answered(available) =>
          if !available {
            slugError := Some(TAKEN);
            slugValidated := false;
          } else {
            slugValidated := true;
            slugError := None;
          }
        case Refused =>
          slugValidated := true;
          slugError := None;
        case Unreachable =>
          slugValidated := false;
      }
    }

    /** Opening restores the project's values as validated; closing resets the form and drops validation. */
    method HandleCloseDialog(open: bool, projectName: string, projectSlug: string)
      modifies this
      ensures open ==> originalSlug == projectSlug && name == defaultName == projectName
                       && slug == defaultSlug == projectSlug && slugValidated
      ensures !open ==> originalSlug == old(originalSlug) && name == defaultName == old(defaultName)
                        && slug == defaultSlug == old(defaultSlug) && !slugValidated
      ensures slugError == None && !isCheckingSlug
    {
      if open {
        originalSlug := projectSlug;
        defaultName, defaultSlug := projectName, projectSlug;
        name, slug := projectName, projectSlug;
        slugError := None;
        slugValidated := true;
      } else {
        name, slug := defaultName, defaultSlug;
        slugError := None;
        slugValidated := false;
      }
      isCheckingSlug := false;
    }

    /** The submit button's `disabled` condition, negated. */
    function SubmitEnabled(isSubmitting: bool): (enabled: bool)
      reads this
      ensures enabled ==> !isSubmitting && !isCheckingSlug && slugValidated
      ensures enabled ==> 3 <= |name| <= 50 && 3 <= |slug| <= 50
      ensures !isSubmitting && !isCheckingSlug && slugValidated && SchemaValid(name, slug) ==> enabled
    {
      !isSubmitting && SchemaValid(name, slug) && !isCheckingSlug && slugValidated
    }
  }
}

/**
 * Pieces shared by the forms' validation schemas: the issues a schema
 * reports, and the password policy that the two registration forms and the
 * change-password form spell out with the same four rules (a minimum length
 * of 8, then the regular expressions `[A-Z]`, `[0-9]` and `[@$!%*?&]`).
 */
module Validators {
  import opened Js

  /** A validation error, attached to one field of the form. */
  datatype Issue = Issue(path: string, message: string)

  /** The message the schema library reports for a field that is missing. */
  const Required := "Required"

  /** The four rules of the password policy, in the order the schemas check them. */
  datatype Rule = MinLength | Uppercase | Digit | Special

  const MinPassword: nat := 8

  predicate IsUpper(c: char)
  {
    'A' <= c <= 'Z'
  }

  predicate IsDigit(c: char)
  {
    '0' <= c <= '9'
  }

  /** The class `[@$!%*?&]`. */
  predicate IsSpecial(c: char)
  {
    c == '@' || c == '$' || c == '!' || c == '%' || c == '*' || c == '?' || c == '&'
  }

  predicate HasUpper(s: string)
  {
    exists i :: 0 <= i < |s| && IsUpper(s[i])
  }

  predicate HasDigit(s: string)
  {
    exists i :: 0 <= i < |s| && IsDigit(s[i])
  }

  predicate HasSpecial(s: string)
  {
    exists i :: 0 <= i < |s| && IsSpecial(s[i])
  }

  /** What the policy means: at least eight characters, with an upper-case letter, a digit and a special character. */
  predicate Strong(s: string)
  {
    |s| >= MinPassword && HasUpper(s) && HasDigit(s) && HasSpecial(s)
  }

  /** `[A-Z]` checked one character at a time, as a regular-expression search does. */
  function FindUpper(s: string): (r: bool)
    ensures r <==> HasUpper(s)
  {
    if s == [] then false
    else if IsUpper(s[0]) then true
    else
      var r := FindUpper(s[1..]);
      assert HasUpper(s[1..]) <==> HasUpper(s) by {
        if HasUpper(s) { var i :| 0 <= i < |s| && IsUpper(s[i]); assert i > 0 && s[1..][i - 1] == s[i]; }
        if HasUpper(s[1..]) { var i :| 0 <= i < |s[1..]| && IsUpper(s[1..][i]); assert s[i + 1] == s[1..][i]; }
      }
      r
  }

  function FindDigit(s: string): (r: bool)
    ensures r <==> HasDigit(s)
  {
    if s == [] then false
    else if IsDigit(s[0]) then true
    else
      var r := FindDigit(s[1..]);
      assert HasDigit(s[1..]) <==> HasDigit(s) by {
        if HasDigit(s) { var i :| 0 <= i < |s| && IsDigit(s[i]); assert i > 0 && s[1..][i - 1] == s[i]; }
        if HasDigit(s[1..]) { var i :| 0 <= i < |s[1..]| && IsDigit(s[1..][i]); assert s[i + 1] == s[1..][i]; }
      }
      r
  }

  function FindSpecial(s: string): (r: bool)
    ensures r <==> HasSpecial(s)
  {
    if s == [] then false
    else if IsSpecial(s[0]) then true
    else
      var r := FindSpecial(s[1..]);
      assert HasSpecial(s[1..]) <==> HasSpecial(s) by {
        if HasSpecial(s) { var i :| 0 <= i < |s| && IsSpecial(s[i]); assert i > 0 && s[1..][i - 1] == s[i]; }
        if HasSpecial(s[1..]) { var i :| 0 <= i < |s[1..]| && IsSpecial(s[1..][i]); assert s[i + 1] == s[1..][i]; }
      }
      r
  }

  /** The rules a password breaks, in the schema's order; a rule is listed iff it is broken. */
  function Broken(s: string): (r: seq<Rule>)
    ensures MinLength in r <==> |s| < MinPassword
    ensures Uppercase in r <==> !HasUpper(s)
    ensures Digit in r <==> !HasDigit(s)
    ensures Special in r <==> !HasSpecial(s)
    ensures |r| <= 4
  {
    (if |s| < MinPassword then [MinLength] else [])
    + (if FindUpper(s) then [] else [Uppercase])
    + (if FindDigit(s) then [] else [Digit])
    + (if FindSpecial(s) then [] else [Special])
  }

  /** The policy passes exactly when no rule is broken. */
  lemma BrokenEmptyIffStrong(s: string)
    ensures Broken(s) == [] <==> Strong(s)
  {
    if Broken(s) != [] {
      var k := Broken(s)[0];
      assert k in Broken(s);
    }
  }

  /** The messages a schema attaches to the four rules. */
  datatype Wording = Wording(minLength: string, uppercase: string, digit: string, special: string)

  function Say(w: Wording, k: Rule): string
  {
    match k
    case MinLength => w.minLength
    case Uppercase => w.uppercase
    case Digit => w.digit
    case Special => w.special
  }

  /** The issues of the password field: one per broken rule, in order, all on `path`. */
  function PasswordIssues(path: string, s: string, w: Wording): (r: seq<Issue>)
    ensures |r| == |Broken(s)|
    ensures forall i :: 0 <= i < |r| ==> r[i] == Issue(path, Say(w, Broken(s)[i]))
    ensures r == [] <==> Strong(s)
  {
    BrokenEmptyIffStrong(s);
    IssuesOf(path, Broken(s), w)
  }

  function IssuesOf(path: string, ks: seq<Rule>, w: Wording): (r: seq<Issue>)
    ensures |r| == |ks| && forall i :: 0 <= i < |r| ==> r[i] == Issue(path, Say(w, ks[i]))
  {
    if ks == [] then [] else [Issue(path, Say(w, ks[0]))] + IssuesOf(path, ks[1..], w)
  }

  /** `z.string().min(n, message)` on a field that may be missing. */
  function MinIssues(path: string, v: Option<string>, n: nat, message: string): (r: seq<Issue>)
    ensures v.None? ==> r == [Issue(path, Required)]
    ensures v.Some? ==> (r == [] <==> |v.value| >= n)
    ensures v.Some? && |v.value| < n ==> r == [Issue(path, message)]
    ensures OnFields(r, {path})
  {
    match v
    case None => [Issue(path, Required)]
    case Some(s) => if |s| < n then [Issue(path, message)] else []
  }

  /** An e-mail field: the format check belongs to the schema library and is a parameter. */
  function EmailIssues(path: string, v: Option<string>, isEmail: string -> bool, message: string): (r: seq<Issue>)
    ensures r == [] <==> v.Some? && isEmail(v.value)
    ensures OnFields(r, {path})
  {
    match v
    case None => [Issue(path, Required)]
    case Some(s) => if isEmail(s) then [] else [Issue(path, message)]
  }

  /** A field that only needs to be a string. */
  function PresentIssues(path: string, v: Option<string>): (r: seq<Issue>)
    ensures r == [] <==> v.Some?
    ensures OnFields(r, {path})
  {
    if v.Some? then [] else [Issue(path, Required)]
  }

  /**
   * A policy-checked password field that may be missing: a missing value is
   * one `Required` issue, a present one gets its broken rules.
   */
  function PolicyIssues(path: string, v: Option<string>, w: Wording): (r: seq<Issue>)
    ensures r == [] <==> v.Some? && Strong(v.value)
    ensures v.Some? ==> r == PasswordIssues(path, v.value, w)
    ensures OnFields(r, {path})
  {
    match v
    case None => [Issue(path, Required)]
    case Some(s) => PasswordIssues(path, s, w)
  }

  /** Every issue of a list is on one of the named fields. */
  predicate OnFields(issues: seq<Issue>, paths: set<string>)
  {
    forall i :: 0 <= i < |issues| ==> issues[i].path in paths
  }

  /** Issues on the named fields, followed by more of them, stay on the named fields. */
  lemma OnFieldsAppend(a: seq<Issue>, b: seq<Issue>, small: set<string>, paths: set<string>)
    requires OnFields(a, paths) && OnFields(b, small) && small <= paths
    ensures OnFields(a + b, paths)
  {
    forall i | 0 <= i < |a + b|
      ensures (a + b)[i].path in paths
    {
      if i >= |a| {
        assert (a + b)[i] == b[i - |a|];
      }
    }
  }
}

/**
 * The pantry log (app/home/pantry.tsx): a text field and a list of the foods
 * logged today.  Logging appends the trimmed text and clears the field;
 * blank text is ignored.
 */
module Pantry {

  /** The characters JavaScript's `String.prototype.trim` removes: WhiteSpace and LineTerminator. */
  predicate IsJsSpace(c: char)
  {
    || c == '\t' || c == '\U{000B}' || c == '\U{000C}' || c == ' ' || c == '\U{00A0}' || c == '\U{FEFF}'
    || c == '\n' || c == '\r' || c == '\U{2028}' || c == '\U{2029}'
    || c == '\U{1680}' || ('\U{2000}' <= c <= '\U{200A}') || c == '\U{202F}' || c == '\U{205F}' || c == '\U{3000}'
  }

  /** Drops the leading white space. */
  function TrimStart(s: string): (r: string)
    ensures |r| <= |s| && r == s[|s| - |r|..]
    ensures forall k :: 0 <= k < |s| - |r| ==> IsJsSpace(s[k])
    ensures r == [] || !IsJsSpace(r[0])
    decreases |s|
  {
    if s != [] && IsJsSpace(s[0]) then TrimStart(s[1..]) else s
  }

  /** Drops the trailing white space. */
  function TrimEnd(s: string): (r: string)
    ensures |r| <= |s| && r == s[..|r|]
    ensures forall k :: |r| <= k < |s| ==> IsJsSpace(s[k])
    ensures r == [] || !IsJsSpace(r[|r| - 1])
    decreases |s|
  {
    if s != [] && IsJsSpace(s[|s| - 1]) then TrimEnd(s[..|s| - 1]) else s
  }

  /** A logged entry: non-empty, and neither starting nor ending with white space. */
  predicate IsTrimmedEntry(e: string)
  {
    e != [] && !IsJsSpace(e[0]) && !IsJsSpace(e[|e| - 1])
  }

  /**
   * `trim()`: drops the leading and the trailing white space, leaving text
   * that is either empty or neither starts nor ends with white space.
   */
  function Trim(s: string): (r: string)
    ensures r == [] || IsTrimmedEntry(r)
  {
    var a := TrimStart(s);
    var r := TrimEnd(a);
    assert r != [] ==> r[0] == a[0];
    r
  }

  /** Trim keeps the slice of `s` that begins where its leading white space ends. */
  lemma TrimIsSlice(s: string)
    ensures |s| - |TrimStart(s)| + |Trim(s)| <= |s|
    ensures Trim(s) == s[|s| - |TrimStart(s)|..|s| - |TrimStart(s)| + |Trim(s)|]
  {
    PrefixOfSuffix(s, TrimStart(s), Trim(s));
  }

  /** A prefix of a suffix of `s` is a slice of `s`. */
  lemma PrefixOfSuffix(s: string, a: string, r: string)
    requires |a| <= |s| && a == s[|s| - |a|..]
    requires |r| <= |a| && r == a[..|r|]
    ensures |s| - |a| + |r| <= |s| && r == s[|s| - |a|..|s| - |a| + |r|]
  {
  }

  /** Trim gives an empty text exactly for blank input, and otherwise a trimmed entry. */
  lemma TrimResult(s: string)
    ensures Trim(s) == [] <==> forall k :: 0 <= k < |s| ==> IsJsSpace(s[k])
    ensures Trim(s) != [] ==> IsTrimmedEntry(Trim(s))
  {
    var a := TrimStart(s);
    if a != [] {
      assert TrimEnd(a)[0] == a[0];
    }
  }

  /** Trimming a trimmed text changes nothing. */
  lemma TrimIdempotent(s: string)
    ensures Trim(Trim(s)) == Trim(s)
  {
    var t := Trim(s);
    TrimResult(s);
    if t != [] {
      assert TrimStart(t) == t;
      assert TrimEnd(t) == t;
    }
  }

  class PantryScreen {
    var foodInput: string
    var loggedFoods: seq<string>

    ghost predicate Valid()
      reads this
    {
      forall k :: 0 <= k < |loggedFoods| ==> IsTrimmedEntry(loggedFoods[k])
    }

    constructor ()
      ensures Valid() && foodInput == "" && loggedFoods == []
    {
      foodInput, loggedFoods := "", [];
    }

    /** The text field's `onChangeText`. */
    method OnChangeText(text: string)
      modifies this
      ensures foodInput == text && loggedFoods == old(loggedFoods)
    {
      foodInput := text;
    }

    /**
     * `handleLogFood`: blank text changes nothing; otherwise the trimmed text
     * is appended after the earlier entries and the field is cleared.
     */
    method HandleLogFood() returns (logged: bool)
      requires Valid()
      modifies this
      ensures Valid()
      ensures logged <==> exists k :: 0 <= k < |old(foodInput)| && !IsJsSpace(old(foodInput)[k])
      ensures !logged ==> foodInput == old(foodInput) && loggedFoods == old(loggedFoods)
      ensures logged ==> loggedFoods == old(loggedFoods) + [Trim(old(foodInput))] && foodInput == ""
      ensures logged ==> |loggedFoods| == |old(loggedFoods)| + 1
    {
      TrimResult(foodInput);
      if Trim(foodInput) == "" {
        return false;
      }
      loggedFoods := loggedFoods + [Trim(foodInput)];
      foodInput := "";
      logged := true;
    }
  }
}

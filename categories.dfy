/** The test-category classification shared by the fixtures and the HTML
    reporter: a chain of ordinal substring checks on the test name, tried in
    a fixed order. The fixtures first look the test method up by name and
    answer "Unknown" when the class has none; the reporter does not. */
module Categories {
  import opened Text

  /** The chain of substring checks (the reporter's `GetTestCategory`). */
  function CategoryOf(testName: string): (c: string)
    ensures c == "API Tests" <==> Contains(testName, "API")
    ensures c == "Navigation Tests" <==> !Contains(testName, "API") && Contains(testName, "Navigation")
    ensures c == "Search Tests" <==>
              !Contains(testName, "API") && !Contains(testName, "Navigation") && Contains(testName, "Search")
    ensures c == "UI Tests" <==>
              !Contains(testName, "API") && !Contains(testName, "Navigation") && !Contains(testName, "Search")
  {
    if Contains(testName, "API") then "API Tests"
    else if Contains(testName, "Navigation") then "Navigation Tests"
    else if Contains(testName, "Search") then "Search Tests"
    else "UI Tests"
  }

  /** The fixtures' `GetTestCategory`: `hasMethod` is whether reflection finds
      a method of the test class named after the test. */
  function GetTestCategory(testName: string, hasMethod: bool): (c: string)
    ensures c == "Unknown" <==> !hasMethod
    ensures hasMethod ==> c == CategoryOf(testName)
  {
    if !hasMethod then "Unknown" else CategoryOf(testName)
  }

  /** "API" takes precedence over the later checks: a test named
      "{p}API{q}" is an API test whatever else its name contains. */
  lemma ApiTakesPrecedence(p: string, q: string)
    ensures CategoryOf(p + "API" + q) == "API Tests"
  {
    var s := p + "API" + q;
    assert s[|p|..|p| + 3] == "API";
    assert OccursAt(s, "API", |p|);
  }

  /** A word cannot occur in a name that lacks its first letter. */
  lemma {:induction false} AbsentInitialNoOccurrence(s: string, word: string)
    requires word != [] && word[0] !in s
    ensures !Contains(s, word)
  {
    forall i | 0 <= i <= |s| - |word|
      ensures !OccursAt(s, word, i)
    {
      assert s[i] in s;
      assert s[i..i + |word|][0] == s[i];
    }
  }

  /** A name without the capitals that begin "API", "Navigation" and
      "Search" falls through every check and is a UI test. */
  lemma PlainNameIsUiTest(testName: string)
    requires 'A' !in testName && 'N' !in testName && 'S' !in testName
    ensures CategoryOf(testName) == "UI Tests"
  {
    AbsentInitialNoOccurrence(testName, "API");
    AbsentInitialNoOccurrence(testName, "Navigation");
    AbsentInitialNoOccurrence(testName, "Search");
  }
}

/** The search box on a two-place catalog: the literal queries "night",
    "NIGHT" and "xyz". */
module SearchExamples {
  import opened Text
  import opened MapFilter

  const Nightingale: Place := Place(1, "Nightingale Block", "academic", 1.0, 2.0, "")
  const FoodCourt: Place := Place(2, "Food Court", "food", 3.0, 4.0, "Open at night")

  /** With the `All` chip a search over two places keeps each place whose
      name matches, in order. */
  lemma SearchTwo(a: Place, b: Place, query: string)
    requires query != ""
    ensures Filtered([a, b], All, query) ==
            (if NameMatches(a.name, query) then [a] else []) + (if NameMatches(b.name, query) then [b] else [])
  {
    assert [a, b][1..] == [b];
    assert [b][1..] == [];
    assert ByName([b], query) == (if NameMatches(b.name, query) then [b] else []) + ByName([], query);
  }

  lemma LowerNightingale() ensures Lower("Nightingale Block") == "nightingale block" {}
  lemma LowerFoodCourt() ensures Lower("Food Court") == "food court" {}
  lemma LowerNight() ensures Lower("night") == "night" && Lower("NIGHT") == "night" {}
  lemma LowerXyz() ensures Lower("xyz") == "xyz" {}

  lemma NightQueryMatches()
    ensures NameMatches("Nightingale Block", "night") && NameMatches("Nightingale Block", "NIGHT")
    ensures !NameMatches("Food Court", "night") && !NameMatches("Food Court", "NIGHT")
  {
    LowerNightingale();
    LowerFoodCourt();
    LowerNight();
    assert "night" <= "nightingale block";
    NoStartingChar("food court", "night");
  }

  lemma XyzQueryMatches()
    ensures !NameMatches("Nightingale Block", "xyz") && !NameMatches("Food Court", "xyz")
  {
    XyzMissesNightingale();
    XyzMissesFoodCourt();
  }

  lemma XyzMissesNightingale()
    ensures !NameMatches("Nightingale Block", "xyz")
  {
    LowerNightingale();
    LowerXyz();
    NoStartingChar("nightingale block", "xyz");
  }

  lemma XyzMissesFoodCourt()
    ensures !NameMatches("Food Court", "xyz")
  {
    LowerFoodCourt();
    LowerXyz();
    NoStartingChar("food court", "xyz");
  }

  /** "night" and "NIGHT" both keep only the Nightingale Block (the food court's
      description mentions the night, its name does not); "xyz" keeps
      nothing. */
  lemma NightingaleQueries()
    ensures Filtered([Nightingale, FoodCourt], All, "night") == [Nightingale]
    ensures Filtered([Nightingale, FoodCourt], All, "NIGHT") == [Nightingale]
    ensures Filtered([Nightingale, FoodCourt], All, "xyz") == []
  {
    NightQueryMatches();
    XyzQueryMatches();
    SearchTwo(Nightingale, FoodCourt, "night");
    SearchTwo(Nightingale, FoodCourt, "NIGHT");
    SearchTwo(Nightingale, FoodCourt, "xyz");
  }

  /** A text without the query's first character cannot contain the query. */
  lemma {:induction false} NoStartingChar(s: string, t: string)
    requires t != [] && t[0] !in s
    ensures !Contains(s, t)
    decreases |s|
  {
    if s != [] {
      NoStartingChar(s[1..], t);
    }
  }
}

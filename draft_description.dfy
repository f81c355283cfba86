/**
 * The draft description partial (client/views/partials/draft-description.js):
 * the words that name a draft by how many parents it has, optionally with
 * an indefinite article.  A draft with no parents is original, one with one
 * parent revises it, and one with more combines them.
 */
module DraftDescription {

  const ORIGINAL: string := "original draft"
  const REVISING: string := "revising draft"
  const COMBINING: string := "combining draft"

  /** The text chosen by the number of parents. */
  function Kind(parentCount: nat): (r: string)
    ensures r == ORIGINAL || r == REVISING || r == COMBINING
    ensures |r| > 0
  {
    if parentCount == 0 then ORIGINAL
    else if parentCount == 1 then REVISING
    else COMBINING
  }

  /** The article the partial puts before a text: "an " before a text starting with 'o', "a " otherwise. */
  function Article(text: string): (r: string)
    ensures r == "an " || r == "a "
    ensures r == "an " <==> |text| > 0 && text[0] == 'o'
  {
    if |text| > 0 && text[0] == 'o' then "an " else "a "
  }

  /** The description's text, with the article when `determiner` is set. */
  function Describe(parentCount: nat, determiner: bool): string {
    var text := Kind(parentCount);
    if determiner then Article(text) + text else text
  }

  /** Each text belongs to exactly one range of parent counts. */
  lemma KindClassifies(parentCount: nat)
    ensures Kind(parentCount) == ORIGINAL <==> parentCount == 0
    ensures Kind(parentCount) == REVISING <==> parentCount == 1
    ensures Kind(parentCount) == COMBINING <==> parentCount >= 2
  {
    assert ORIGINAL[0] == 'o' && REVISING[0] == 'r' && COMBINING[0] == 'c';
  }

  /** Only the original draft takes "an"; every other description takes "a". */
  lemma ArticleAgrees(parentCount: nat)
    ensures Describe(parentCount, true) == "an original draft" <==> parentCount == 0
    ensures parentCount == 1 ==> Describe(parentCount, true) == "a revising draft"
    ensures parentCount >= 2 ==> Describe(parentCount, true) == "a combining draft"
  {
    KindClassifies(parentCount);
    if parentCount != 0 {
      var r := Describe(parentCount, true);
      assert r[0] == 'a' && r[1] == ' ';
      assert r[2] != 'o';
      assert "an original draft"[2] == ' ';
    }
  }

  /** The determiner only adds a prefix: the article, followed by the undetermined text. */
  lemma DeterminerPrefixes(parentCount: nat)
    ensures var plain := Describe(parentCount, false);
      var article := Describe(parentCount, true)[..|Describe(parentCount, true)| - |plain|];
      && |Describe(parentCount, true)| > |plain|
      && Describe(parentCount, true) == article + plain
      && (article == "an " || article == "a ")
  {
    var plain := Describe(parentCount, false);
    var full := Describe(parentCount, true);
    assert full == Article(plain) + plain;
    assert full[..|full| - |plain|] == Article(plain);
  }
}

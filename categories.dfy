/**
 * The four fixed trauma categories, in the order in which every feature
 * vector, bucket table and score loop of the application lists them.
 */
module Categories {
  import opened Wrappers

  datatype Category = Family | Financial | Career | Love

  /** The fixed order Family, Financial, Career, Love. */
  const Order: seq<Category> := [Family, Financial, Career, Love]

  /** The name under which a category is keyed in dictionaries and the database. */
  function Name(c: Category): string
  {
    match c
    case Family => "Family"
    case Financial => "Financial"
    case Career => "Career"
    case Love => "Love"
  }

  /** Position of a category in `Order`. */
  function Index(c: Category): (k: nat)
    ensures k < |Order| && Order[k] == c
  {
    match c
    case Family => 0
    case Financial => 1
    case Career => 2
    case Love => 3
  }

  /** Looks a name up among the four keys; any other string is not a category. */
  function FromName(s: string): (r: Option<Category>)
    ensures r.Some? ==> Name(r.value) == s
    ensures r.None? ==> forall c: Category :: Name(c) != s
  {
    if s == "Family" then Some(Family)
    else if s == "Financial" then Some(Financial)
    else if s == "Career" then Some(Career)
    else if s == "Love" then Some(Love)
    else None
  }

  lemma NameRoundTrip(c: Category)
    ensures FromName(Name(c)) == Some(c)
  {
  }

  lemma OrderListsEachCategoryOnce()
    ensures |Order| == 4
    ensures forall c: Category :: c in Order
    ensures forall i, j :: 0 <= i < j < |Order| ==> Order[i] != Order[j]
  {
    forall c: Category ensures c in Order {
      assert Order[Index(c)] == c;
    }
  }
}

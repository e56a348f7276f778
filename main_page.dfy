/**
 * The category picker and details form (src/main.jsx): a fixed catalog of four
 * categories, a selected category that enables the submit button and gives it its
 * colours, and a keyword editor holding at most five trimmed, non-empty keywords.
 */
module MainPage {
  import opened Js
  import opened Text

  /** One card of the catalog (the SVG icon is named, not drawn). */
  datatype Category = Category(
    id: string, title: string, description: string, icon: string,
    bgColor: string, iconColor: string, selectedBorderColor: string,
    buttonColor: string, buttonHoverColor: string)

  const Catalog: seq<Category> := [
    Category("resume", "Resume", "경력과 역량을 효과적으로 전달하세요", "briefcase",
             "#E3F2FD", "#2196F3", "#64B5F6", "#5C6BC0", "#3F51B5"),
    Category("report", "Report", "체계적인 보고서를 작성하세요", "document",
             "#E8F5E9", "#4CAF50", "#81C784", "#43A047", "#2E7D32"),
    Category("essay", "Essay", "논리적인 에세이를 완성하세요", "graduation",
             "#FFFDE7", "#FFC107", "#FFE082", "#E65100", "#BF360C"),
    Category("cover-letter", "Cover Letter", "인상적인 자기소개서를 만드세요", "envelope",
             "#FCE4EC", "#F44336", "#EF5350", "#B71C1C", "#8B0000")
  ]

  const FallbackButtonColor: string := "#5C6BC0"
  const FallbackButtonHoverColor: string := "#3F51B5"

  /** No two categories share an id. */
  predicate DistinctIds(cats: seq<Category>) {
    forall i, j :: 0 <= i < j < |cats| ==> cats[i].id != cats[j].id
  }

  /** `categories.find(cat => cat.id === id)`: the first category with that id. */
  function Find(cats: seq<Category>, id: string): (r: Option<Category>)
    ensures r.Some? ==> r.value in cats && r.value.id == id
    ensures r.None? <==> forall k :: 0 <= k < |cats| ==> cats[k].id != id
  {
    if cats == [] then None
    else if cats[0].id == id then Some(cats[0])
    else Find(cats[1..], id)
  }

  /** With distinct ids, looking up a category's own id finds that category. */
  lemma {:induction false} FindOwnId(cats: seq<Category>, k: nat)
    requires DistinctIds(cats)
    requires k < |cats|
    ensures Find(cats, cats[k].id) == Some(cats[k])
  {
    if k > 0 {
      assert cats[0].id != cats[k].id;
      assert cats[1..][k - 1] == cats[k];
      FindOwnId(cats[1..], k - 1);
    }
  }

  /** `disabled={!selectedCategory}`: submitting needs a selected category. */
  predicate SubmitEnabled(selected: Option<string>) {
    Truthy(selected)
  }

  datatype ButtonStyle = ButtonStyle(color: string, hoverColor: string)

  /** The submit button's colours: none without a selection; the selected category's own colours,
      falling back to the default pair when the id is not in the catalog. */
  function SubmitStyle(selected: Option<string>): (r: Option<ButtonStyle>)
    ensures r.Some? <==> SubmitEnabled(selected)
    ensures r.Some? && Find(Catalog, selected.value).None? ==>
      r.value == ButtonStyle(FallbackButtonColor, FallbackButtonHoverColor)
    ensures r.Some? && Find(Catalog, selected.value).Some? ==>
      r.value == ButtonStyle(Find(Catalog, selected.value).value.buttonColor,
                             Find(Catalog, selected.value).value.buttonHoverColor)
  {
    if !SubmitEnabled(selected) then None
    else
      var found := Find(Catalog, selected.value);
      var color := OrElse(if found.Some? then Some(found.value.buttonColor) else None, FallbackButtonColor);
      var hover := OrElse(if found.Some? then Some(found.value.buttonHoverColor) else None, FallbackButtonHoverColor);
      assert found.Some? ==> found.value in Catalog;
      Some(ButtonStyle(color, hover))
  }

  /** Every card, once selected, gives the button that card's own colours. */
  lemma CatalogButtonColors(k: nat)
    requires k < |Catalog|
    ensures SubmitStyle(Some(Catalog[k].id)) == Some(ButtonStyle(Catalog[k].buttonColor, Catalog[k].buttonHoverColor))
  {
    FindOwnId(Catalog, k);
  }

  // ---------------------------------------------------------------------------
  // Keywords

  const MaxKeywords: nat := 5

  /** What the editor stores: non-empty and without surrounding white space. */
  predicate IsKeyword(s: string) {
    s != "" && IsTrimmed(s)
  }

  /** `keywords.filter((_, i) => i !== index)`: drops the element at `index`, if there is one. */
  function RemoveAt<T>(xs: seq<T>, index: int): (r: seq<T>)
    ensures |r| <= |xs|
    ensures forall x :: x in r ==> x in xs
  {
    if xs == [] then []
    else (if index == 0 then [] else [xs[0]]) + RemoveAt(xs[1..], index - 1)
  }

  /** Removing at an index in range deletes exactly that element and keeps the rest in order;
      an index out of range (negative, or past the end) leaves the list as it was. */
  lemma {:induction false} RemoveAtSpec<T>(xs: seq<T>, index: int)
    ensures 0 <= index < |xs| ==> RemoveAt(xs, index) == xs[..index] + xs[index + 1..]
    ensures !(0 <= index < |xs|) ==> RemoveAt(xs, index) == xs
  {
    if xs != [] {
      RemoveAtSpec(xs[1..], index - 1);
      if index == 0 {
        assert xs[..0] + xs[1..] == xs[1..];
      } else if 0 < index < |xs| {
        assert xs[..index] == [xs[0]] + xs[1..][..index - 1];
        assert xs[index + 1..] == xs[1..][index..];
      } else {
        assert xs == [xs[0]] + xs[1..];
      }
    }
  }

  predicate AllKeywords(ks: seq<string>) {
    forall k :: 0 <= k < |ks| ==> IsKeyword(ks[k])
  }

  lemma KeywordsExtend(ks: seq<string>, input: string)
    requires AllKeywords(ks) && input != "" && IsTrimmed(input)
    ensures AllKeywords(ks + [input])
  {
  }

  /** The state of the details form. */
  class DetailsForm {
    var selectedCategory: Option<string>
    var title: string
    var keywordInput: string
    var keywords: seq<string>
    var topicDescription: string

    /** At most five keywords, each one trimmed and non-empty; a selection is always a catalog id. */
    ghost predicate Valid()
      reads this
    {
      && |keywords| <= MaxKeywords
      && AllKeywords(keywords)
      && (selectedCategory.Some? ==> Find(Catalog, selectedCategory.value).Some?)
    }

    constructor ()
      ensures Valid()
      ensures selectedCategory == None && title == "" && keywordInput == ""
      ensures keywords == [] && topicDescription == ""
    {
      selectedCategory, title, keywordInput, keywords, topicDescription := None, "", "", [], "";
    }

    /** A click on the `k`-th card. */
    method SelectCategory(k: nat)
      requires Valid() && k < |Catalog|
      modifies this
      ensures Valid()
      ensures selectedCategory == Some(Catalog[k].id)
      ensures title == old(title) && keywordInput == old(keywordInput)
      ensures keywords == old(keywords) && topicDescription == old(topicDescription)
    {
      FindOwnId(Catalog, k);
      selectedCategory := Some(Catalog[k].id);
    }

    /** Typing in the keyword field. */
    method SetKeywordInput(value: string)
      requires Valid()
      modifies this`keywordInput
      ensures Valid() && keywordInput == value
    {
      keywordInput := value;
    }

    /** `handleAddKeyword`: appends the trimmed input and clears the field, when the trimmed
        input is non-empty and there is room; otherwise nothing changes. */
    method AddKeyword() returns (added: bool)
      requires Valid()
      modifies this`keywords, this`keywordInput
      ensures Valid()
      ensures added <==> Trim(old(keywordInput)) != "" && |old(keywords)| < MaxKeywords
      ensures added ==> keywords == old(keywords) + [Trim(old(keywordInput))] && keywordInput == ""
      ensures !added ==> keywords == old(keywords) && keywordInput == old(keywordInput)
    {
      var trimmed := Trim(keywordInput);
      added := trimmed != "" && |keywords| < MaxKeywords;
      if added {
        KeywordsExtend(keywords, trimmed);
        keywords := keywords + [trimmed];
        keywordInput := "";
      }
    }

    /** `handleRemoveKeyword(index)`. */
    method RemoveKeyword(index: int)
      requires Valid()
      modifies this`keywords
      ensures Valid()
      ensures 0 <= index < |old(keywords)| ==> keywords == old(keywords)[..index] + old(keywords)[index + 1..]
      ensures !(0 <= index < |old(keywords)|) ==> keywords == old(keywords)
    {
      RemoveAtSpec(keywords, index);
      keywords := RemoveAt(keywords, index);
    }

    /** `handleKeyPress`: only the Enter key adds a keyword; any other key changes nothing. */
    method KeyPress(key: string) returns (added: bool)
      requires Valid()
      modifies this`keywords, this`keywordInput
      ensures Valid()
      ensures key != "Enter" ==> !added && keywords == old(keywords) && keywordInput == old(keywordInput)
      ensures key == "Enter" ==>
        && (added <==> Trim(old(keywordInput)) != "" && |old(keywords)| < MaxKeywords)
        && (added ==> keywords == old(keywords) + [Trim(old(keywordInput))] && keywordInput == "")
        && (!added ==> keywords == old(keywords) && keywordInput == old(keywordInput))
    {
      added := false;
      if key == "Enter" {
        added := AddKeyword();
      }
    }

    /** With a valid form, an enabled submit button always shows the selected card's own colours. */
    lemma SelectedStyleIsOwnColors()
      requires Valid()
      requires SubmitEnabled(selectedCategory)
      ensures var c := Find(Catalog, selectedCategory.value).value;
        SubmitStyle(selectedCategory) == Some(ButtonStyle(c.buttonColor, c.buttonHoverColor))
    {
    }
  }
}

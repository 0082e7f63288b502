/**
 * The impact gallery (src/pages/Impact.tsx): a fixed list of stories shown through a
 * category filter, `All` or one of the four categories of an impact story.
 */
module Impact {
  import opened Records
  import opened Seqs

  /** The gallery's filter: `'All'` or a category name. */
  datatype StoryFilter = AllStories | OnlyCategory(category: Category)

  /** The filter bar's buttons, in order. */
  const FilterButtons: seq<StoryFilter> :=
    [AllStories, OnlyCategory(Orphans), OnlyCategory(Widows), OnlyCategory(Community), OnlyCategory(Education)]

  /** Every filter has a button, and no button is repeated. */
  lemma FilterButtonsSpec(f: StoryFilter)
    ensures f in FilterButtons
    ensures forall i, j :: 0 <= i < j < |FilterButtons| ==> FilterButtons[i] != FilterButtons[j]
  {
    match f
    case AllStories => assert FilterButtons[0] == f;
    case OnlyCategory(c) =>
      match c
      case Orphans => assert FilterButtons[1] == f;
      case Widows => assert FilterButtons[2] == f;
      case Community => assert FilterButtons[3] == f;
      case Education => assert FilterButtons[4] == f;
  }

  /** The gallery's stories (the page's mock data), by id, title, category, image,
      description and date. */
  const Stories: seq<ImpactStory> := [
    ImpactStory("1", "School Fees for Lekki Orphanage", Education, "https://picsum.photos/600/600?random=1",
                "Covered tuition for 20 children for the term.", "30th Sept 2023"),
    ImpactStory("2", "Food Distribution at Yaba", Widows, "https://picsum.photos/600/600?random=2",
                "Distributed 50 bags of rice and oil.", "30th Oct 2023"),
    ImpactStory("3", "Medical Outreach", Community, "https://picsum.photos/600/600?random=3",
                "Free malaria testing and drugs.", "30th Aug 2023"),
    ImpactStory("4", "Baby Supplies", Orphans, "https://picsum.photos/600/600?random=4",
                "Diapers and formula for the infant ward.", "30th Nov 2023"),
    ImpactStory("5", "Skill Acquisition Workshop", Widows, "https://picsum.photos/600/600?random=5",
                "Soap making training for 15 women.", "30th July 2023"),
    ImpactStory("6", "Renovation of Dormitory", Orphans, "https://picsum.photos/600/600?random=6",
                "Fixed leaking roofs before rainy season.", "30th June 2023")
  ]

  function InCategory(c: Category): ImpactStory -> bool
  {
    (s: ImpactStory) => s.category == c
  }

  /** `filteredStories`. */
  function FilteredStories(stories: seq<ImpactStory>, f: StoryFilter): seq<ImpactStory>
  {
    match f
    case AllStories => stories
    case OnlyCategory(c) => Filter(stories, InCategory(c))
  }

  /** `All` shows every story; a category shows exactly the stories of that category, in
      their original order; filtering again by the same filter changes nothing, and the
      result is never longer than the list. */
  lemma FilteredStoriesSpec(stories: seq<ImpactStory>, f: StoryFilter, s: ImpactStory)
    ensures f == AllStories ==> FilteredStories(stories, f) == stories
    ensures f.OnlyCategory? ==> (s in FilteredStories(stories, f) <==> s in stories && s.category == f.category)
    ensures IsSubsequence(FilteredStories(stories, f), stories)
    ensures |FilteredStories(stories, f)| <= |stories|
    ensures FilteredStories(FilteredStories(stories, f), f) == FilteredStories(stories, f)
  {
    match f
    case AllStories =>
      assert IsSubsequence(stories, stories) by {
        FilterKeepsAll(stories, (x: ImpactStory) => true);
        FilterIsSubsequence(stories, (x: ImpactStory) => true);
      }
    case OnlyCategory(c) =>
      FilterMembership(stories, InCategory(c), s);
      FilterIsSubsequence(stories, InCategory(c));
      FilterIdempotent(stories, InCategory(c));
  }

  /** How many stories one category shows. */
  function CategoryCount(stories: seq<ImpactStory>, c: Category): nat
  {
    |FilteredStories(stories, OnlyCategory(c))|
  }

  /** Every story has exactly one of the four categories, so the four category views together
      show every story once. */
  lemma {:induction false} CategoriesPartition(stories: seq<ImpactStory>)
    ensures CategoryCount(stories, Orphans) + CategoryCount(stories, Widows) +
            CategoryCount(stories, Community) + CategoryCount(stories, Education) == |stories|
  {
    if stories != [] {
      CategoriesPartition(stories[1..]);
      assert stories[0..] == stories;
      CountStep(stories, 0, Orphans);
      CountStep(stories, 0, Widows);
      CountStep(stories, 0, Community);
      CountStep(stories, 0, Education);
    }
  }

  /** Counting a category over a suffix from position `k` looks at `k` and then moves on. */
  lemma CountStep(s: seq<ImpactStory>, k: nat, c: Category)
    requires k < |s|
    ensures CategoryCount(s[k..], c) == (if s[k].category == c then 1 else 0) + CategoryCount(s[k + 1..], c)
  {
    assert s[k..][0] == s[k];
    assert s[k..][1..] == s[k + 1..];
  }

  /** An illustration on the page's own list: it holds two stories for orphans. */
  lemma OrphanStories()
    ensures CategoryCount(Stories, Orphans) == 2
  {
    assert Stories[0..] == Stories;
    assert Stories[6..] == [];
    CountStep(Stories, 0, Orphans);
    CountStep(Stories, 1, Orphans);
    CountStep(Stories, 2, Orphans);
    CountStep(Stories, 3, Orphans);
    CountStep(Stories, 4, Orphans);
    CountStep(Stories, 5, Orphans);
  }

  /** The gallery page: its one piece of state is the selected filter. */
  class Gallery {
    var filter: StoryFilter

    /** The gallery opens on `All`, so every story is shown. */
    constructor ()
      ensures filter == AllStories
      ensures FilteredStories(Stories, filter) == Stories
    {
      filter := AllStories;
    }

    /** A filter button's click selects its filter. */
    method SetFilter(f: StoryFilter)
      modifies this`filter
      ensures filter == f
    {
      filter := f;
    }
  }
}

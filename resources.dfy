/**
 * The resource library (frontend/src/pages/Resources.jsx): the fixed list of
 * resources, the search-and-category filter and the type badge.
 */
module Resources {
  import opened Wrappers
  import opened Text
  import Seqs

  /** One resource; `kind` is the source's `type`. The card colour is left out. */
  datatype Resource = Resource(id: int, title: string, kind: string, category: string,
                               desc: string, link: string, internal: Option<string>)

  const Table: seq<Resource> := [
    Resource(1, "Understanding Anxiety", "article", "Anxiety",
             "A comprehensive guide to understanding the symptoms and triggers of anxiety.",
             "https://www.mind.org.uk/information-support/types-of-mental-health-problems/anxiety-and-panic-attacks/about-anxiety/", None),
    Resource(2, "5-Minute Meditation for Stress", "video", "Mindfulness",
             "A quick guided meditation to help you reset and lower stress levels immediately.",
             "https://www.youtube.com/watch?v=ssss7V1_eyA", None),
    Resource(3, "Sleep Hygiene 101", "article", "Sleep",
             "Practical tips to improve your sleep quality and establish a healthy bedtime routine.",
             "https://www.sleepfoundation.org/sleep-hygiene", None),
    Resource(4, "Box Breathing Technique", "exercise", "Anxiety",
             "A simple but powerful breathing technique to regain control during panic.",
             "#", Some("/breathe")),
    Resource(5, "Dealing with Burnout", "article", "Work",
             "How to recognize the signs of burnout and steps to recover from it.",
             "https://hbr.org/2016/11/beating-burnout", None),
    Resource(6, "The Science of Gratitude", "video", "Depression",
             "How practicing gratitude can physically change your brain and improve happiness.",
             "https://www.youtube.com/watch?v=JMd1CcGZYwU", None)
  ]

  /** The category buttons, 'All' first. */
  const Categories: seq<string> := ["All", "Anxiety", "Depression", "Mindfulness", "Sleep", "Work"]

  /** Every resource's category has a button. */
  lemma EveryCategoryHasAButton()
    ensures forall k :: 0 <= k < |Table| ==> Table[k].category in Categories
  {
  }

  /** The search text occurs, ignoring ASCII case, in the title or the description. */
  predicate MatchesSearch(r: Resource, search: string) {
    Includes(ToLower(r.title), ToLower(search)) || Includes(ToLower(r.desc), ToLower(search))
  }

  predicate MatchesCategory(r: Resource, cat: string) {
    cat == "All" || r.category == cat
  }

  /** `filtered`: the resources that match both the search and the category, in table order. */
  function Filtered(items: seq<Resource>, search: string, cat: string): (rs: seq<Resource>)
    ensures forall r :: r in rs <==> r in items && MatchesSearch(r, search) && MatchesCategory(r, cat)
    ensures Seqs.IsSubsequence(rs, items)
  {
    Seqs.FilterIsSubsequence(items, (r: Resource) => MatchesSearch(r, search) && MatchesCategory(r, cat));
    Seqs.Filter(items, (r: Resource) => MatchesSearch(r, search) && MatchesCategory(r, cat))
  }

  lemma EmptyPatternOccurs(s: string)
    ensures Includes(s, "")
  {
    assert OccursAt(s, "", 0);
  }

  /** With no search text and 'All' selected, every resource is shown, in order. */
  lemma EmptySearchShowsAll(items: seq<Resource>)
    ensures Filtered(items, "", "All") == items
  {
    forall k | 0 <= k < |items| ensures MatchesSearch(items[k], "") {
      EmptyPatternOccurs(ToLower(items[k].title));
    }
    Seqs.FilterAll(items, (r: Resource) => MatchesSearch(r, "") && MatchesCategory(r, "All"));
  }

  /** For the same search, a category's list is picked out of the 'All' list. */
  lemma CategoryWithinAll(items: seq<Resource>, search: string, cat: string)
    ensures Seqs.IsSubsequence(Filtered(items, search, cat), Filtered(items, search, "All"))
  {
    Seqs.FilterMonotone(items,
      (r: Resource) => MatchesSearch(r, search) && MatchesCategory(r, cat),
      (r: Resource) => MatchesSearch(r, search) && MatchesCategory(r, "All"));
  }

  /** With no search text, only the category decides. */
  lemma EmptySearchFiltersByCategory(items: seq<Resource>, cat: string)
    ensures Filtered(items, "", cat) == Seqs.Filter(items, (r: Resource) => MatchesCategory(r, cat))
  {
    forall k | 0 <= k < |items| ensures MatchesSearch(items[k], "") {
      EmptyPatternOccurs(ToLower(items[k].title));
    }
    Seqs.FilterCongruent(items, (r: Resource) => MatchesSearch(r, "") && MatchesCategory(r, cat),
      (r: Resource) => MatchesCategory(r, cat));
  }

  /** A category no resource has shows an empty list, whatever the search. */
  lemma UnusedCategoryShowsNothing(items: seq<Resource>, search: string, cat: string)
    requires cat != "All" && forall k :: 0 <= k < |items| ==> items[k].category != cat
    ensures Filtered(items, search, cat) == []
  {
    var rs := Filtered(items, search, cat);
    assert forall r :: r in rs ==> r in items;
  }

  /** `r.type.charAt(0).toUpperCase() + r.type.slice(1)`. */
  function BadgeLabel(kind: string): (b: string)
    ensures |b| == |kind|
    ensures kind != [] ==> b[0] == UpperChar(kind[0]) && b[1..] == kind[1..]
  {
    Capitalize(kind)
  }

  lemma BadgeLabels()
    ensures BadgeLabel("article") == "Article"
    ensures BadgeLabel("video") == "Video"
    ensures BadgeLabel("exercise") == "Exercise"
  {
    assert "article"[1..] == "rticle";
    assert "video"[1..] == "ideo";
    assert "exercise"[1..] == "xercise";
  }
}

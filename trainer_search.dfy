/**
 * The three trainer searches: the search modal (specialty a list or null),
 * the trainer directory section (specialty a single string) and the trainer
 * page (specialty flattened to one string by `getSpecialtyString`).
 */
module TrainerSearch {

  import opened Opt
  import opened JsStrings
  import opened Seqs

  /** A trainer's specialty as stored: a list, a single string, or null. */
  datatype Specialty = Many(items: seq<string>) | One(text: string) | Missing

  /**
   * `fields.filter(Boolean).some(v => typeof v === "string" && v.toLowerCase().includes(q.toLowerCase()))`,
   * the test the search modal and the directory share.
   */
  predicate AnyFieldHits(fields: seq<Option<string>>, query: string) {
    Any(Filter(fields, OptTruthy), (v: Option<string>) => v.Some? && ContainsIgnoreCase(v.value, query))
  }

  /** A field list passes exactly when one of its non-empty strings matches. */
  lemma AnyFieldHitsIff(fields: seq<Option<string>>, query: string)
    ensures AnyFieldHits(fields, query) <==> exists s :: Some(s) in fields && s != "" && ContainsIgnoreCase(s, query)
  {
    if exists s :: Some(s) in fields && s != "" && ContainsIgnoreCase(s, query) {
      var s :| Some(s) in fields && s != "" && ContainsIgnoreCase(s, query);
      assert Some(s) in Filter(fields, OptTruthy);
    }
  }

  // ---- search modal ----

  datatype ModalTrainer = ModalTrainer(name: string, location: Option<string>, specialty: Specialty)

  /** `[t.name, t.location, ...(Array.isArray(t.specialty) ? t.specialty : [t.specialty])]`. */
  function ModalFields(t: ModalTrainer): seq<Option<string>> {
    [Some(t.name), t.location] +
    match t.specialty
    case Many(items) => seq(|items|, i requires 0 <= i < |items| => Some(items[i]))
    case One(s) => [Some(s)]
    case Missing => [None]
  }

  predicate ModalMatches(t: ModalTrainer, query: string) {
    AnyFieldHits(ModalFields(t), query)
  }

  /** The modal's `filtered` list. */
  function ModalSearch(trainers: seq<ModalTrainer>, query: string): (r: seq<ModalTrainer>)
    ensures IsSubsequence(r, trainers)
    ensures forall t :: t in r <==> t in trainers && ModalMatches(t, query)
    ensures forall t :: multiset(r)[t] == if ModalMatches(t, query) then multiset(trainers)[t] else 0
  {
    Filter(trainers, t => ModalMatches(t, query))
  }

  /** The strings in a modal trainer's field list: its name, its location and its specialties. */
  lemma ModalFieldStrings(t: ModalTrainer)
    ensures forall s :: Some(s) in ModalFields(t) <==>
      s == t.name || t.location == Some(s)
      || (t.specialty.Many? && s in t.specialty.items) || (t.specialty.One? && s == t.specialty.text)
  {
    var fields := ModalFields(t);
    if t.specialty.Many? {
      var items := t.specialty.items;
      forall s | s in items
        ensures Some(s) in fields
      {
        var i :| 0 <= i < |items| && items[i] == s;
        assert fields[2 + i] == Some(s);
      }
      forall s | Some(s) in fields
        ensures s == t.name || t.location == Some(s) || s in items
      {
        var k :| 0 <= k < |fields| && fields[k] == Some(s);
        if k >= 2 {
          assert items[k - 2] == s;
        }
      }
    }
  }

  /**
   * A trainer is found exactly when its name, its location or one of its
   * specialties is a non-empty string containing the query, ignoring case;
   * a null location or specialty offers nothing.
   */
  lemma ModalMatchesIff(t: ModalTrainer, query: string)
    ensures ModalMatches(t, query) <==>
      || (t.name != "" && ContainsIgnoreCase(t.name, query))
      || (OptTruthy(t.location) && ContainsIgnoreCase(t.location.value, query))
      || (t.specialty.Many? && exists s :: s in t.specialty.items && s != "" && ContainsIgnoreCase(s, query))
      || (t.specialty.One? && t.specialty.text != "" && ContainsIgnoreCase(t.specialty.text, query))
  {
    AnyFieldHitsIff(ModalFields(t), query);
    ModalFieldStrings(t);
  }

  /** With an empty query every trainer having some non-empty field is found, and only those. */
  lemma ModalEmptyQuery(t: ModalTrainer)
    ensures ModalMatches(t, "") <==>
      t.name != "" || OptTruthy(t.location)
      || (t.specialty.Many? && exists s :: s in t.specialty.items && s != "")
      || (t.specialty.One? && t.specialty.text != "")
  {
    ModalMatchesIff(t, "");
    forall s: string
      ensures ContainsIgnoreCase(s, "")
    {
      EmptyQueryMatches(s);
    }
  }

  /** Queries that agree once lower-cased find the same trainers. */
  lemma ModalIgnoresCase(trainers: seq<ModalTrainer>, q1: string, q2: string)
    requires Lower(q1) == Lower(q2)
    ensures ModalSearch(trainers, q1) == ModalSearch(trainers, q2)
  {
    forall t | t in trainers
      ensures ModalMatches(t, q1) == ModalMatches(t, q2)
    {
      AnyFieldHitsIff(ModalFields(t), q1);
      AnyFieldHitsIff(ModalFields(t), q2);
    }
    FilterAgree(trainers, t => ModalMatches(t, q1), t => ModalMatches(t, q2));
  }

  // ---- trainer directory section ----

  datatype DirectoryTrainer = DirectoryTrainer(name: string, location: string, specialty: string)

  /** The same field list as the modal's; a string specialty is its own one-element list. */
  function DirectoryFields(t: DirectoryTrainer): seq<Option<string>> {
    [Some(t.name), Some(t.location), Some(t.specialty)]
  }

  predicate DirectoryMatches(t: DirectoryTrainer, query: string) {
    AnyFieldHits(DirectoryFields(t), query)
  }

  /** The directory's `filtered` list. */
  function DirectorySearch(trainers: seq<DirectoryTrainer>, query: string): (r: seq<DirectoryTrainer>)
    ensures IsSubsequence(r, trainers)
    ensures forall t :: t in r <==> t in trainers && DirectoryMatches(t, query)
    ensures forall t :: multiset(r)[t] == if DirectoryMatches(t, query) then multiset(trainers)[t] else 0
  {
    Filter(trainers, t => DirectoryMatches(t, query))
  }

  /** A trainer is found exactly when a non-empty name, location or specialty contains the query, ignoring case. */
  lemma DirectoryMatchesIff(t: DirectoryTrainer, query: string)
    ensures DirectoryMatches(t, query) <==>
      || (t.name != "" && ContainsIgnoreCase(t.name, query))
      || (t.location != "" && ContainsIgnoreCase(t.location, query))
      || (t.specialty != "" && ContainsIgnoreCase(t.specialty, query))
  {
    AnyFieldHitsIff(DirectoryFields(t), query);
  }

  /** The directory's test is the modal's on a trainer with one specialty. */
  lemma DirectoryIsModal(t: DirectoryTrainer, query: string)
    ensures DirectoryMatches(t, query) == ModalMatches(ModalTrainer(t.name, Some(t.location), One(t.specialty)), query)
  {
    assert DirectoryFields(t) == ModalFields(ModalTrainer(t.name, Some(t.location), One(t.specialty)));
  }

  /** With an empty query the directory lists exactly the trainers with some non-empty field. */
  lemma DirectoryEmptyQuery(t: DirectoryTrainer)
    ensures DirectoryMatches(t, "") <==> t.name != "" || t.location != "" || t.specialty != ""
  {
    DirectoryMatchesIff(t, "");
    EmptyQueryMatches(t.name);
    EmptyQueryMatches(t.location);
    EmptyQueryMatches(t.specialty);
  }

  // ---- trainer page ----

  /** The trainer page's record; the location column may hold null although the type says string. */
  datatype PageTrainer = PageTrainer(name: string, location: Option<string>, specialty: Specialty)

  const NoSpecialty := "전문 분야 미입력"
  const SpecialtySeparator := ", "

  /** `getSpecialtyString`. */
  function SpecialtyString(s: Specialty): (r: string)
    ensures s.Many? ==> r == Join(s.items, SpecialtySeparator)
    ensures s.Many? ==> forall k :: 0 <= k < |s.items| ==> Contains(r, s.items[k])
    ensures s.One? ==> r == s.text
    ensures s.Missing? ==> r == NoSpecialty
  {
    match s
    case Many(items) =>
      var r := Join(items, SpecialtySeparator);
      forall k | 0 <= k < |items|
        ensures Contains(r, items[k])
      {
        ContainsJoined(items, SpecialtySeparator, k);
      }
      r
    case One(text) => text
    case Missing => NoSpecialty
  }

  /**
   * `t.location.toLowerCase()` throws a TypeError on a null location; the
   * `||` chain reaches it only when the name did not match.
   */
  predicate PageThrows(t: PageTrainer, query: string) {
    t.location.None? && !ContainsIgnoreCase(t.name, query)
  }

  /** The page's test on a trainer for which it does not throw. */
  predicate PageMatches(t: PageTrainer, query: string) {
    || ContainsIgnoreCase(t.name, query)
    || (t.location.Some? && ContainsIgnoreCase(t.location.value, query))
    || ContainsIgnoreCase(SpecialtyString(t.specialty), query)
  }

  /** The trainer page's `filtered` list, or nothing when the filter throws and the page fails to render. */
  function PageSearch(trainers: seq<PageTrainer>, query: string): (r: Option<seq<PageTrainer>>)
    ensures r.None? <==> exists t :: t in trainers && PageThrows(t, query)
    ensures r.Some? ==> IsSubsequence(r.value, trainers)
    ensures r.Some? ==> forall t :: t in r.value <==> t in trainers && PageMatches(t, query)
    ensures r.Some? ==> forall t :: multiset(r.value)[t] == if PageMatches(t, query) then multiset(trainers)[t] else 0
  {
    if Any(trainers, t => PageThrows(t, query)) then None
    else Some(Filter(trainers, t => PageMatches(t, query)))
  }

  /** An empty query never reaches a location, so it keeps every trainer, in order. */
  lemma PageEmptyQueryKeepsAll(trainers: seq<PageTrainer>)
    ensures PageSearch(trainers, "") == Some(trainers)
  {
    forall t | t in trainers
      ensures PageMatches(t, "") && !PageThrows(t, "")
    {
      EmptyQueryMatches(t.name);
    }
    FilterKeepsAll(trainers, t => PageMatches(t, ""));
  }

  function AsModal(t: PageTrainer): ModalTrainer {
    ModalTrainer(t.name, t.location, t.specialty)
  }

  /** Whatever the modal finds, the trainer page finds too, unless it throws on that trainer. */
  lemma ModalHitIsPageHit(t: PageTrainer, query: string)
    requires ModalMatches(AsModal(t), query)
    ensures !PageThrows(t, query) ==> PageMatches(t, query)
  {
    ModalMatchesIff(AsModal(t), query);
    if t.specialty.Many?
      && !ContainsIgnoreCase(t.name, query)
      && !(t.location.Some? && ContainsIgnoreCase(t.location.value, query))
    {
      var items := t.specialty.items;
      var s :| s in items && s != "" && ContainsIgnoreCase(s, query);
      var k :| 0 <= k < |items| && items[k] == s;
      var joined := SpecialtyString(t.specialty);
      assert Contains(joined, s);
      ContainsLower(joined, s);
      ContainsTrans(Lower(joined), Lower(s), Lower(query));
    }
  }

  /** The placeholder shown for a missing specialty contains "미입력", whatever the case. */
  lemma PlaceholderHasQuery()
    ensures ContainsIgnoreCase(NoSpecialty, "미입력")
  {
    var q := "미입력";
    LowerNoCapitals(q);
    LowerNoCapitals(NoSpecialty);
    ContainsInside("전문 분야 ", q, "");
    assert "전문 분야 " + q + "" == NoSpecialty;
  }

  /** A string lacking the query's first character does not match it. */
  lemma MissingHeadMisses(s: string, q: string)
    requires q != "" && Lower(q) == q && q[0] !in Lower(s)
    ensures !ContainsIgnoreCase(s, q)
  {
    if ContainsIgnoreCase(s, q) {
      ContainsHead(Lower(s), q);
    }
  }

  /** Neither "Kim" nor "Seoul" contains "미입력", whatever the case. */
  lemma NameAndCityMiss()
    ensures !ContainsIgnoreCase("Kim", "미입력") && !ContainsIgnoreCase("Seoul", "미입력")
  {
    LowerNoCapitals("미입력");
    MissingHeadMisses("Kim", "미입력");
    MissingHeadMisses("Seoul", "미입력");
  }

  /** The converse fails: the page matches the placeholder text of a trainer without specialty, the modal does not. */
  lemma PageFindsPlaceholder()
    ensures var t := PageTrainer("Kim", Some("Seoul"), Missing);
      PageMatches(t, "미입력") && !PageThrows(t, "미입력") && !ModalMatches(AsModal(t), "미입력")
  {
    PlaceholderHasQuery();
    NameAndCityMiss();
    ModalMatchesIff(AsModal(PageTrainer("Kim", Some("Seoul"), Missing)), "미입력");
  }

  /** "Kim" does not contain "요가", and "요가" contains itself, whatever the case. */
  lemma YogaFacts()
    ensures !ContainsIgnoreCase("Kim", "요가") && ContainsIgnoreCase("요가", "요가")
  {
    var q := "요가";
    LowerNoCapitals(q);
    MissingHeadMisses("Kim", q);
    ContainsInside("", q, "");
    assert "" + q + "" == q;
  }

  /**
   * A trainer with a null location whose specialty matches: the modal
   * lists it, while the trainer page throws and shows no list at all.
   */
  lemma NullLocationBreaksPage()
    ensures var t := PageTrainer("Kim", None, One("요가"));
      AsModal(t) in ModalSearch([AsModal(t)], "요가") && PageSearch([t], "요가").None?
  {
    var q := "요가";
    var m := ModalTrainer("Kim", None, One(q));
    var t := PageTrainer("Kim", None, One(q));
    YogaFacts();
    assert ModalMatches(m, q) by {
      ModalMatchesIff(m, q);
    }
    assert AsModal(t) == m && m in [m];
    assert PageThrows(t, q) && t in [t];
  }
}

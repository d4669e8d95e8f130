/** The portfolio service (PortfolioService in
    backend/services/portfolio_service.py): six collections — portfolios and
    the five kinds of list item — read back sorted by position, updated
    field by field, and filled from a mock-data dictionary by a migration
    that upserts each item under a natural key.

    The clock (`datetime.now`) and uuid4() are parameters. The service's
    coroutines become methods of a class whose fields are the collections. */
module PortfolioService {
  import opened Wrappers
  import opened Documents
  import opened PortfolioModels

  /** The six collections as one value. */
  datatype Database = Database(
    portfolios: seq<Document>,
    skills: seq<Document>,
    experiences: seq<Document>,
    projects: seq<Document>,
    achievements: seq<Document>,
    publications: seq<Document>)
  {
    function Items(kind: Kind): seq<Document> {
      match kind
      case Skills => skills
      case Experiences => experiences
      case Projects => projects
      case Achievements => achievements
      case Publications => publications
    }

    /** The same collections with those of `kind` replaced. */
    function With(kind: Kind, docs: seq<Document>): (db: Database)
      ensures db.Items(kind) == docs
      ensures db.portfolios == portfolios
      ensures forall k :: k != kind ==> db.Items(k) == Items(k)
    {
      match kind
      case Skills => this.(skills := docs)
      case Experiences => this.(experiences := docs)
      case Projects => this.(projects := docs)
      case Achievements => this.(achievements := docs)
      case Publications => this.(publications := docs)
    }
  }

  /** What get_portfolio returns: the portfolio and its five lists. */
  datatype PortfolioExport = PortfolioExport(
    portfolio: Document,
    skills: seq<Document>,
    experiences: seq<Document>,
    projects: seq<Document>,
    achievements: seq<Document>,
    publications: seq<Document>)
  {
    function Items(kind: Kind): seq<Document> {
      match kind
      case Skills => skills
      case Experiences => experiences
      case Projects => projects
      case Achievements => achievements
      case Publications => publications
    }
  }

  /** `{"userId": userId}`: a portfolio by its owner. */
  function UserFilter(userId: string): Document {
    map["userId" := Str(userId)]
  }

  /** `{"portfolioId": portfolioId}`: the items of one portfolio. */
  function OwnerFilter(portfolioId: string): Document {
    map["portfolioId" := Str(portfolioId)]
  }

  /** `{"id": id}`: one item by its id. */
  function IdFilter(id: string): Document {
    map["id" := Str(id)]
  }

  /** `{k: v for k, v in dump.items() if v is not None}`. */
  function NonNullFields(dump: Document): (kept: Document)
    ensures forall k :: k in kept <==> k in dump && dump[k] != Null
    ensures forall k :: k in kept ==> kept[k] == dump[k]
  {
    map k | k in dump && dump[k] != Null :: dump[k]
  }

  /** A personal update keeps no field exactly when every field is None. */
  lemma PersonalUpdateEmpty(u: PersonalInfoUpdate)
    ensures NonNullFields(PersonalUpdateDoc(u)) == map[] <==>
      u == PersonalInfoUpdate(None, None, None, None, None, None)
  {
    var kept := NonNullFields(PersonalUpdateDoc(u));
    if kept == map[] {
      assert "name" !in kept && "tagline" !in kept && "email" !in kept;
      assert "github" !in kept && "linkedin" !in kept && "kaggle" !in kept;
    }
  }

  /** An about update keeps no field exactly when every field is None. */
  lemma AboutUpdateEmpty(u: AboutSectionUpdate)
    ensures NonNullFields(AboutUpdateDoc(u)) == map[] <==> u == AboutSectionUpdate(None, None, None)
  {
    var kept := NonNullFields(AboutUpdateDoc(u));
    if kept == map[] {
      assert "title" !in kept && "description" !in kept && "education" !in kept;
    }
  }

  /** The personal and about updates, seen on the stored portfolio: the first
      portfolio of the user gets its section merged key by key with the kept
      fields, and nothing else changes. */
  lemma SectionUpdateMerges(docs: seq<Document>, userId: string, section: string, kept: Document)
    requires kept != map[]
    requires FirstMatch(docs, UserFilter(userId)).Some?
    ensures var i := FirstMatch(docs, UserFilter(userId)).value;
      UpdateOne(docs, UserFilter(userId), NestedSet(section, kept)).0
        == docs[i := docs[i][section := Doc(SubDocument(docs[i], section) + kept)]]
  {
    var i := FirstMatch(docs, UserFilter(userId)).value;
    NestedSetMerges(docs[i], section, kept);
  }

  // ---------------------------------------------------------------------
  // Reads

  /** The items of one portfolio, ascending by position: exactly the
      collection's documents owned by it, each as often as it is stored. */
  function OwnedByOrder(docs: seq<Document>, portfolioId: string): (r: seq<Document>)
    ensures SortedByOrder(r)
    ensures multiset(r) == multiset(Find(docs, OwnerFilter(portfolioId)))
    ensures forall d :: d in r ==> Matches(d, OwnerFilter(portfolioId))
    ensures forall j :: 0 <= j < |docs| && Matches(docs[j], OwnerFilter(portfolioId)) ==> docs[j] in r
  {
    var found := Find(docs, OwnerFilter(portfolioId));
    var r := SortByOrder(found);
    assert forall d :: d in r <==> d in found by {
      forall d ensures d in r <==> d in found {
        assert d in r <==> d in multiset(r);
        assert d in found <==> d in multiset(found);
      }
    }
    r
  }

  /** get_portfolio: nothing without a portfolio for the user; otherwise
      the first such portfolio and its five lists, each sorted by position. */
  function PortfolioOf(db: Database, portfolioId: string): (r: Option<PortfolioExport>)
    ensures r.None? <==> forall j :: 0 <= j < |db.portfolios| ==> !Matches(db.portfolios[j], UserFilter(portfolioId))
    ensures r.Some? ==> r.value.portfolio in db.portfolios && Matches(r.value.portfolio, UserFilter(portfolioId))
    ensures r.Some? ==>
      && r.value.skills == OwnedByOrder(db.skills, portfolioId)
      && r.value.experiences == OwnedByOrder(db.experiences, portfolioId)
      && r.value.projects == OwnedByOrder(db.projects, portfolioId)
      && r.value.achievements == OwnedByOrder(db.achievements, portfolioId)
      && r.value.publications == OwnedByOrder(db.publications, portfolioId)
  {
    match FirstMatch(db.portfolios, UserFilter(portfolioId))
    case None => None
    case Some(i) =>
      Some(PortfolioExport(
        db.portfolios[i],
        OwnedByOrder(db.skills, portfolioId),
        OwnedByOrder(db.experiences, portfolioId),
        OwnedByOrder(db.projects, portfolioId),
        OwnedByOrder(db.achievements, portfolioId),
        OwnedByOrder(db.publications, portfolioId)))
  }

  // ---------------------------------------------------------------------
  // Migration: the records built from mock data

  /** The natural key an item is upserted under: the title within the
      "default" portfolio, and the company as well for an experience. */
  function MigrationKey(it: Item): (key: Document)
    ensures key.Keys == KeyFields(ItemKind(it))
  {
    var key := map["portfolioId" := Str(DEFAULT_USER), "title" := Str(it.title)];
    if it.Experience? then key["company" := Str(it.company)] else key
  }

  function KeyFields(kind: Kind): set<string> {
    if kind == Experiences then {"portfolioId", "title", "company"} else {"portfolioId", "title"}
  }

  /** An item of the "default" portfolio satisfies its own key. */
  lemma KeyMatchesItem(it: Item)
    requires it.portfolioId == DEFAULT_USER
    ensures Matches(ItemDoc(it), MigrationKey(it))
  {
    if it.Experience? {
      assert FieldsDoc(it)["company"] == Str(it.company);
    }
  }

  /** The position, id, owner and timestamps every migrated item gets. */
  predicate Stamped(it: Item, order: nat, id: string, now: int) {
    it.order == order && it.id == id && it.portfolioId == DEFAULT_USER
    && it.createdAt == now && it.updatedAt == now
  }

  /** `SkillCategory(title = v["title"], items = v["items"], order = i)`. */
  function SkillRecord(v: Value, order: nat, id: string, now: int): (r: Option<Item>)
  {
    var title :- Lookup(v, "title");
    var items :- Lookup(v, "items");
    var t :- AsStr(title);
    var xs :- AsStrList(items);
    Some(SkillCategory(id, DEFAULT_USER, t, xs, order, now, now))
  }

  /** `Experience(...)` from a mock entry; `current` defaults to false. */
  function ExperienceRecord(v: Value, order: nat, id: string, now: int): (r: Option<Item>)
  {
    var title :- RequiredStr(v, "title");
    var company :- RequiredStr(v, "company");
    var location :- RequiredStr(v, "location");
    var duration :- RequiredStr(v, "duration");
    var description :- RequiredStr(v, "description");
    var currentIn := GetOr(v, "current", Bool(false));
    var current :- AsBool(currentIn);
    Some(Experience(id, DEFAULT_USER, title, company, location, duration, description, current, order, now, now))
  }

  /** `Project(...)` from a mock entry; links default to "#", the two flags
      to false. */
  function ProjectRecord(v: Value, order: nat, id: string, now: int): (r: Option<Item>)
  {
    var title :- RequiredStr(v, "title");
    var description :- RequiredStr(v, "description");
    var technologiesIn :- Lookup(v, "technologies");
    var technologies :- AsStrList(technologiesIn);
    var githubIn := GetOr(v, "github", Str("#"));
    var github :- AsStr(githubIn);
    var demoIn := GetOr(v, "demo", Str("#"));
    var demo :- AsStr(demoIn);
    var featuredIn := GetOr(v, "featured", Bool(false));
    var featured :- AsBool(featuredIn);
    var placeholderIn := GetOr(v, "placeholder", Bool(false));
    var placeholder :- AsBool(placeholderIn);
    Some(Project(id, DEFAULT_USER, title, description, technologies, github, demo, featured, placeholder, order, now, now))
  }

  /** `Achievement(title = v["title"], description = v["description"], order = i)`. */
  function AchievementRecord(v: Value, order: nat, id: string, now: int): (r: Option<Item>)
  {
    var title :- RequiredStr(v, "title");
    var description :- RequiredStr(v, "description");
    Some(Achievement(id, DEFAULT_USER, title, description, order, now, now))
  }

  /** `Publication(...)` from a mock entry; the DOI defaults to None. */
  function PublicationRecord(v: Value, order: nat, id: string, now: int): (r: Option<Item>)
  {
    var title :- RequiredStr(v, "title");
    var authors :- RequiredStr(v, "authors");
    var publication :- RequiredStr(v, "publication");
    var year :- RequiredStr(v, "year");
    var doiIn := GetOr(v, "doi", Null);
    var doi :- AsOptStr(doiIn);
    Some(Publication(id, DEFAULT_USER, title, authors, publication, year, doi, order, now, now))
  }

  /** What a skill category takes from its entry. */
  lemma SkillRecordFields(v: Value, order: nat, id: string, now: int)
    ensures var r := SkillRecord(v, order, id, now);
      r.Some? ==>
        && r.value.SkillCategory? && Stamped(r.value, order, id, now)
        && Lookup(v, "title") == Some(Str(r.value.title))
        && Lookup(v, "items") == Some(StrList(r.value.items))
    ensures SkillRecord(v, order, id, now).Some? <==>
      (StrAt(v, "title") && "items" in v.fields && v.fields["items"].List? && AllStr(v.fields["items"].items))
  {
  }

  /** What an experience takes from its entry; `current` is false unless given. */
  lemma ExperienceRecordFields(v: Value, order: nat, id: string, now: int)
    ensures var r := ExperienceRecord(v, order, id, now);
      r.Some? ==>
        && r.value.Experience? && Stamped(r.value, order, id, now)
        && Lookup(v, "title") == Some(Str(r.value.title))
        && Lookup(v, "company") == Some(Str(r.value.company))
        && Lookup(v, "location") == Some(Str(r.value.location))
        && Lookup(v, "duration") == Some(Str(r.value.duration))
        && Lookup(v, "description") == Some(Str(r.value.description))
        && ("current" !in v.fields ==> !r.value.current)
        && ("current" in v.fields ==> AsBool(v.fields["current"]) == Some(r.value.current))
    ensures ExperienceRecord(v, order, id, now).Some? <==>
      (StrAt(v, "title") && StrAt(v, "company") && StrAt(v, "location")
       && StrAt(v, "duration") && StrAt(v, "description")
       && ("current" in v.fields ==> AsBool(v.fields["current"]).Some?))
  {
  }

  /** What a project takes from its entry; the links are "#" and the two
      flags false unless given. */
  lemma ProjectRecordFields(v: Value, order: nat, id: string, now: int)
    ensures var r := ProjectRecord(v, order, id, now);
      r.Some? ==>
        && r.value.Project? && Stamped(r.value, order, id, now)
        && Lookup(v, "title") == Some(Str(r.value.title))
        && Lookup(v, "description") == Some(Str(r.value.description))
        && Lookup(v, "technologies") == Some(StrList(r.value.technologies))
        && ("github" !in v.fields ==> r.value.github == "#")
        && ("github" in v.fields ==> v.fields["github"] == Str(r.value.github))
        && ("demo" !in v.fields ==> r.value.demo == "#")
        && ("demo" in v.fields ==> v.fields["demo"] == Str(r.value.demo))
        && ("featured" !in v.fields ==> !r.value.featured)
        && ("featured" in v.fields ==> AsBool(v.fields["featured"]) == Some(r.value.featured))
        && ("placeholder" !in v.fields ==> !r.value.placeholder)
        && ("placeholder" in v.fields ==> AsBool(v.fields["placeholder"]) == Some(r.value.placeholder))
    ensures ProjectRecord(v, order, id, now).Some? <==>
      (StrAt(v, "title") && StrAt(v, "description")
       && "technologies" in v.fields && AsStrList(v.fields["technologies"]).Some?
       && ("github" in v.fields ==> v.fields["github"].Str?)
       && ("demo" in v.fields ==> v.fields["demo"].Str?)
       && ("featured" in v.fields ==> AsBool(v.fields["featured"]).Some?)
       && ("placeholder" in v.fields ==> AsBool(v.fields["placeholder"]).Some?))
  {
  }

  /** What an achievement takes from its entry. */
  lemma AchievementRecordFields(v: Value, order: nat, id: string, now: int)
    ensures var r := AchievementRecord(v, order, id, now);
      r.Some? ==>
        && r.value.Achievement? && Stamped(r.value, order, id, now)
        && Lookup(v, "title") == Some(Str(r.value.title))
        && Lookup(v, "description") == Some(Str(r.value.description))
    ensures AchievementRecord(v, order, id, now).Some? <==> StrAt(v, "title") && StrAt(v, "description")
  {
  }

  /** What a publication takes from its entry; the DOI is None unless given. */
  lemma PublicationRecordFields(v: Value, order: nat, id: string, now: int)
    ensures var r := PublicationRecord(v, order, id, now);
      r.Some? ==>
        && r.value.Publication? && Stamped(r.value, order, id, now)
        && Lookup(v, "title") == Some(Str(r.value.title))
        && Lookup(v, "authors") == Some(Str(r.value.authors))
        && Lookup(v, "publication") == Some(Str(r.value.publication))
        && Lookup(v, "year") == Some(Str(r.value.year))
        && ("doi" !in v.fields ==> r.value.doi.None?)
        && ("doi" in v.fields ==> v.fields["doi"] == OptStr(r.value.doi))
    ensures PublicationRecord(v, order, id, now).Some? <==>
      (StrAt(v, "title") && StrAt(v, "authors") && StrAt(v, "publication") && StrAt(v, "year")
       && ("doi" in v.fields ==> v.fields["doi"].Str? || v.fields["doi"].Null?))
  {
  }

  /** The record the migration builds from the `order`-th entry of a list. */
  function ItemRecord(kind: Kind, v: Value, order: nat, id: string, now: int): Option<Item> {
    match kind
    case Skills => SkillRecord(v, order, id, now)
    case Experiences => ExperienceRecord(v, order, id, now)
    case Projects => ProjectRecord(v, order, id, now)
    case Achievements => AchievementRecord(v, order, id, now)
    case Publications => PublicationRecord(v, order, id, now)
  }

  /** A record is of the kind of its list, belongs to the "default"
      portfolio, carries its position as order and the id and time given. */
  lemma ItemRecordStamped(kind: Kind, v: Value, order: nat, id: string, now: int)
    ensures var r := ItemRecord(kind, v, order, id, now);
      r.Some? ==> ItemKind(r.value) == kind && Stamped(r.value, order, id, now)
  {
    match kind
    case Skills => SkillRecordFields(v, order, id, now);
    case Experiences => ExperienceRecordFields(v, order, id, now);
    case Projects => ProjectRecordFields(v, order, id, now);
    case Achievements => AchievementRecordFields(v, order, id, now);
    case Publications => PublicationRecordFields(v, order, id, now);
  }

  /** `for x in v`: the elements of a list; an empty string or dictionary
      gives none. A non-empty string or dictionary yields strings, and the
      first `x["title"]` on one of them raises, before anything is written,
      so both count as failures here, as does anything not iterable. */
  function Iterate(v: Value): (r: Option<seq<Value>>)
    ensures v.List? ==> r == Some(v.items)
  {
    match v
    case List(xs) => Some(xs)
    case Str(s) => if s == "" then Some([]) else None
    case Doc(m) => if m == map[] then Some([]) else None
    case _ => None
  }

  /** The mock-data list migrated into the collection of `kind`. */
  function ListToMigrate(mock: Document, kind: Kind): Option<seq<Value>> {
    match kind
    case Skills =>
      var skills :- Lookup(Doc(mock), "skills");
      var categories :- Lookup(skills, "categories");
      Iterate(categories)
    case Experiences =>
      var v :- Lookup(Doc(mock), "experience");
      Iterate(v)
    case Projects =>
      var v :- Lookup(Doc(mock), "projects");
      Iterate(v)
    case Achievements =>
      var v :- Lookup(Doc(mock), "achievements");
      Iterate(v)
    case Publications =>
      var v :- Lookup(Doc(mock), "publications");
      Iterate(v)
  }

  /** The portfolio built from `mock["personal"]` and `mock["about"]`. */
  function NewPortfolio(mock: Document, id: string, now: int): (r: Option<Portfolio>)
    ensures r.Some? ==> r.value.userId == DEFAULT_USER && r.value.id == id
    ensures r.Some? ==> r.value.createdAt == now && r.value.updatedAt == now
    ensures r.Some? ==> "personal" in mock && ValidatePersonal(mock["personal"]) == Some(r.value.personal)
    ensures r.Some? ==> "about" in mock && ValidateAbout(mock["about"]) == Some(r.value.about)
    ensures r.Some? <==>
      ("personal" in mock && ValidatePersonal(mock["personal"]).Some?
       && "about" in mock && ValidateAbout(mock["about"]).Some?)
  {
    var personalIn :- Lookup(Doc(mock), "personal");
    var personal :- ValidatePersonal(personalIn);
    var aboutIn :- Lookup(Doc(mock), "about");
    var about :- ValidateAbout(aboutIn);
    Some(Portfolio(id, DEFAULT_USER, personal, about, now, now))
  }

  /** What create_or_update_portfolio writes: the dump, restamped, replacing
      the user's portfolio or inserted as a new one. */
  function PortfolioUpsert(docs: seq<Document>, p: Portfolio, now: int): (r: seq<Document>)
    ensures PortfolioDoc(p)["updatedAt" := Date(now)] in r
    ensures CountMatches(r, UserFilter(p.userId)) ==
      if CountMatches(docs, UserFilter(p.userId)) == 0 then 1 else CountMatches(docs, UserFilter(p.userId))
  {
    var doc := PortfolioDoc(p)["updatedAt" := Date(now)];
    assert Matches(doc, UserFilter(p.userId));
    UpsertCount(docs, UserFilter(p.userId), doc, UserFilter(p.userId));
    ReplaceOne(docs, UserFilter(p.userId), doc, true)
  }

  // ---------------------------------------------------------------------
  // Migration: the specification

  /** The `replace_one` each entry of a list leads to: the natural key and
      stored form of its record, or None where the entry makes no record.
      Building a record reads and writes nothing, so the writes of a list
      can be worked out before the first of them is made. */
  function Writes(kind: Kind, items: seq<Value>, newId: (Kind, nat) -> string, now: int)
    : (ws: seq<Option<(Document, Document)>>)
    ensures |ws| == |items|
  {
    seq(|items|, j requires 0 <= j < |items| =>
      match ItemRecord(kind, items[j], j, newId(kind, j), now)
      case None => None
      case Some(it) => Some((MigrationKey(it), ItemDoc(it))))
  }

  /** The migration loop from the `from`-th write on: each one upserted,
      until the first entry without a record. The result is the new
      collection and whether every entry made a record; the writes before a
      failure are kept. */
  function UpsertAll(docs: seq<Document>, writes: seq<Option<(Document, Document)>>, from: nat)
    : (r: (seq<Document>, bool))
    requires from <= |writes|
    decreases |writes| - from
  {
    if from == |writes| then (docs, true)
    else
      match writes[from]
      case None => (docs, false)
      case Some((key, doc)) => UpsertAll(ReplaceOne(docs, key, doc, true), writes, from + 1)
  }

  /** The loop that makes the writes of one list, in order, on the
      collection `docs0`, stopping at the first entry without a record. */
  method UpsertEach(docs0: seq<Document>, writes: seq<Option<(Document, Document)>>)
      returns (docs: seq<Document>, ok: bool)
    ensures (docs, ok) == UpsertAll(docs0, writes, 0)
  {
    docs := docs0;
    var i := 0;
    while i < |writes| && writes[i].Some?
      invariant 0 <= i <= |writes|
      invariant UpsertAll(docs0, writes, 0) == UpsertAll(docs, writes, i)
      decreases |writes| - i
    {
      var (key, doc) := writes[i].value;
      docs := ReplaceOne(docs, key, doc, true);
      i := i + 1;
    }
    ok := i == |writes|;
  }

  /** The migration loop over one whole list. */
  function MigrateItems(docs: seq<Document>, kind: Kind, items: seq<Value>,
                        newId: (Kind, nat) -> string, now: int): (seq<Document>, bool)
  {
    UpsertAll(docs, Writes(kind, items, newId, now), 0)
  }

  /** One collection's migration: a missing or unusable list fails with
      nothing written. */
  function MigrateKind(db: Database, mock: Document, kind: Kind,
                       newId: (Kind, nat) -> string, now: int): (Database, bool)
  {
    match ListToMigrate(mock, kind)
    case None => (db, false)
    case Some(items) =>
      var (docs, ok) := MigrateItems(db.Items(kind), kind, items, newId, now);
      (db.With(kind, docs), ok)
  }

  /** The collections in the order the migration fills them. */
  const MIGRATION_ORDER: seq<Kind> := [Skills, Experiences, Projects, Achievements, Publications]

  function MigrateKinds(db: Database, mock: Document, kinds: seq<Kind>,
                        newId: (Kind, nat) -> string, now: int): (Database, bool)
    decreases |kinds|
  {
    if kinds == [] then (db, true)
    else
      var (db1, ok) := MigrateKind(db, mock, kinds[0], newId, now);
      if !ok then (db1, false) else MigrateKinds(db1, mock, kinds[1..], newId, now)
  }

  /** migrate_mock_data: the portfolio first, then the five lists; the
      result says whether every step completed. `portfolioUuid` is the
      uuid4() the new portfolio takes as its own id; the portfolio and the
      items belong to the "default" user. */
  function Migration(db: Database, mock: Document, portfolioUuid: string,
                     newId: (Kind, nat) -> string, now: int): (Database, bool)
  {
    match NewPortfolio(mock, portfolioUuid, now)
    case None => (db, false)
    case Some(p) =>
      MigrateKinds(db.(portfolios := PortfolioUpsert(db.portfolios, p, now)), mock, MIGRATION_ORDER, newId, now)
  }

  // ---------------------------------------------------------------------
  // Migration: properties

  /** The loop succeeds exactly when none of the remaining entries lacks
      a record. */
  lemma UpsertAllSucceeds(docs: seq<Document>, writes: seq<Option<(Document, Document)>>, from: nat)
    requires from <= |writes|
    ensures UpsertAll(docs, writes, from).1 <==> forall j :: from <= j < |writes| ==> writes[j].Some?
  {
    if UpsertAll(docs, writes, from).1 {
      SucceededAllSome(docs, writes, from);
    } else {
      FailedSomeNone(docs, writes, from);
    }
  }

  lemma {:induction false} SucceededAllSome(docs: seq<Document>, writes: seq<Option<(Document, Document)>>, from: nat)
    requires from <= |writes|
    requires UpsertAll(docs, writes, from).1
    ensures forall j :: from <= j < |writes| ==> writes[j].Some?
    decreases |writes| - from
  {
    if from < |writes| {
      var (key, doc) := writes[from].value;
      SucceededAllSome(ReplaceOne(docs, key, doc, true), writes, from + 1);
    }
  }

  lemma {:induction false} FailedSomeNone(docs: seq<Document>, writes: seq<Option<(Document, Document)>>, from: nat)
    requires from <= |writes|
    requires !UpsertAll(docs, writes, from).1
    ensures exists j :: from <= j < |writes| && writes[j].None?
    decreases |writes| - from
  {
    if writes[from].Some? {
      var (key, doc) := writes[from].value;
      FailedSomeNone(ReplaceOne(docs, key, doc, true), writes, from + 1);
    }
  }

  /** Every document the loop leaves was there before or is one of the
      documents it wrote. */
  lemma {:induction false} UpsertAllProvenance(docs: seq<Document>, writes: seq<Option<(Document, Document)>>, from: nat)
    requires from <= |writes|
    ensures forall d :: d in UpsertAll(docs, writes, from).0 ==>
      d in docs || exists j :: from <= j < |writes| && writes[j].Some? && d == writes[j].value.1
    decreases |writes| - from
  {
    if from < |writes| && writes[from].Some? {
      var (key, doc) := writes[from].value;
      UpsertAllProvenance(ReplaceOne(docs, key, doc, true), writes, from + 1);
    }
  }

  /** The stored form of the record of the `j`-th entry, if it makes one. */
  function RecordDoc(kind: Kind, items: seq<Value>, j: nat, newId: (Kind, nat) -> string, now: int): (r: Option<Document>)
    requires j < |items|
    ensures r.Some? ==> OrderOf(r.value) == Some(j)
  {
    ItemRecordStamped(kind, items[j], j, newId(kind, j), now);
    match ItemRecord(kind, items[j], j, newId(kind, j), now)
    case None => None
    case Some(it) => Some(ItemDoc(it))
  }

  /** Migrating a list succeeds exactly when every entry makes a record. */
  lemma MigrateItemsSucceeds(docs: seq<Document>, kind: Kind, items: seq<Value>,
                             newId: (Kind, nat) -> string, now: int)
    ensures MigrateItems(docs, kind, items, newId, now).1 <==>
      forall j :: 0 <= j < |items| ==> RecordDoc(kind, items, j, newId, now).Some?
  {
    var writes := Writes(kind, items, newId, now);
    UpsertAllSucceeds(docs, writes, 0);
    assert forall j :: 0 <= j < |items| ==> (writes[j].Some? <==> RecordDoc(kind, items, j, newId, now).Some?);
  }

  /** Every document of a migrated list was there before or is the record
      of one of its entries, stored with that entry's position as order. */
  lemma MigrateItemsProvenance(docs: seq<Document>, kind: Kind, items: seq<Value>,
                               newId: (Kind, nat) -> string, now: int)
    ensures forall d :: d in MigrateItems(docs, kind, items, newId, now).0 ==>
      d in docs || exists j :: 0 <= j < |items| && RecordDoc(kind, items, j, newId, now) == Some(d)
  {
    var writes := Writes(kind, items, newId, now);
    UpsertAllProvenance(docs, writes, 0);
    forall d | d in MigrateItems(docs, kind, items, newId, now).0 && d !in docs
      ensures exists j :: 0 <= j < |items| && RecordDoc(kind, items, j, newId, now) == Some(d)
    {
      var j :| 0 <= j < |writes| && writes[j].Some? && d == writes[j].value.1;
      assert RecordDoc(kind, items, j, newId, now) == Some(d);
    }
  }

  /** No two documents of a collection share a natural key. */
  ghost predicate UniqueKeys(docs: seq<Document>, kind: Kind) {
    forall key: Document :: key.Keys == KeyFields(kind) ==> CountMatches(docs, key) <= 1
  }

  /** A write under a natural key of the kind, of a document satisfying
      that key. */
  predicate KeyedWrite(w: (Document, Document), kind: Kind) {
    w.0.Keys == KeyFields(kind) && Matches(w.1, w.0)
  }

  /** One upsert of a document under its own natural key keeps the keys
      unique. */
  lemma UpsertKeepsKeysUnique(docs: seq<Document>, kind: Kind, key: Document, doc: Document)
    requires UniqueKeys(docs, kind)
    requires KeyedWrite((key, doc), kind)
    ensures UniqueKeys(ReplaceOne(docs, key, doc, true), kind)
  {
    forall other: Document | other.Keys == KeyFields(kind)
      ensures CountMatches(ReplaceOne(docs, key, doc, true), other) <= 1
    {
      UpsertCount(docs, key, doc, other);
      if Matches(doc, other) {
        SameFieldsSameFilter(doc, key, other);
      }
    }
  }

  lemma {:induction false} UpsertAllKeepsKeysUnique(docs: seq<Document>, kind: Kind,
                                                    writes: seq<Option<(Document, Document)>>, from: nat)
    requires from <= |writes|
    requires forall j :: from <= j < |writes| && writes[j].Some? ==> KeyedWrite(writes[j].value, kind)
    requires UniqueKeys(docs, kind)
    ensures UniqueKeys(UpsertAll(docs, writes, from).0, kind)
    decreases |writes| - from
  {
    if from < |writes| && writes[from].Some? {
      var (key, doc) := writes[from].value;
      UpsertKeepsKeysUnique(docs, kind, key, doc);
      UpsertAllKeepsKeysUnique(ReplaceOne(docs, key, doc, true), kind, writes, from + 1);
    }
  }

  /** Each write of a migrated list goes under a natural key of its kind,
      which its own document satisfies. */
  lemma WritesAreKeyed(kind: Kind, items: seq<Value>, newId: (Kind, nat) -> string, now: int)
    ensures var writes := Writes(kind, items, newId, now);
      forall j :: 0 <= j < |writes| && writes[j].Some? ==> KeyedWrite(writes[j].value, kind)
  {
    var writes := Writes(kind, items, newId, now);
    forall j | 0 <= j < |writes| && writes[j].Some?
      ensures KeyedWrite(writes[j].value, kind)
    {
      var it := ItemRecord(kind, items[j], j, newId(kind, j), now).value;
      ItemRecordStamped(kind, items[j], j, newId(kind, j), now);
      KeyMatchesItem(it);
    }
  }

  lemma MigrateItemsKeepsKeysUnique(docs: seq<Document>, kind: Kind, items: seq<Value>,
                                    newId: (Kind, nat) -> string, now: int)
    requires UniqueKeys(docs, kind)
    ensures UniqueKeys(MigrateItems(docs, kind, items, newId, now).0, kind)
  {
    WritesAreKeyed(kind, items, newId, now);
    UpsertAllKeepsKeysUnique(docs, kind, Writes(kind, items, newId, now), 0);
  }

  ghost predicate AllKeysUnique(db: Database) {
    forall kind :: UniqueKeys(db.Items(kind), kind)
  }

  lemma {:induction false} MigrateKindsKeepsKeysUnique(db: Database, mock: Document, kinds: seq<Kind>,
                                                       newId: (Kind, nat) -> string, now: int)
    requires AllKeysUnique(db)
    ensures AllKeysUnique(MigrateKinds(db, mock, kinds, newId, now).0)
    decreases |kinds|
  {
    if kinds != [] {
      var kind := kinds[0];
      var (db1, ok) := MigrateKind(db, mock, kind, newId, now);
      match ListToMigrate(mock, kind)
      case None =>
      case Some(items) =>
        MigrateItemsKeepsKeysUnique(db.Items(kind), kind, items, newId, now);
        assert AllKeysUnique(db1) by {
          forall k ensures UniqueKeys(db1.Items(k), k) {
            if k != kind {
              assert db1.Items(k) == db.Items(k);
            }
          }
        }
      if ok {
        MigrateKindsKeepsKeysUnique(db1, mock, kinds[1..], newId, now);
      }
    }
  }

  /** The migration never creates a second record under a natural key:
      starting from collections with unique keys (empty ones, say) it keeps
      them unique, however often it is run. */
  lemma MigrationKeepsKeysUnique(db: Database, mock: Document, portfolioUuid: string,
                                 newId: (Kind, nat) -> string, now: int)
    requires AllKeysUnique(db)
    ensures AllKeysUnique(Migration(db, mock, portfolioUuid, newId, now).0)
  {
    match NewPortfolio(mock, portfolioUuid, now)
    case None =>
    case Some(p) =>
      var db1 := db.(portfolios := PortfolioUpsert(db.portfolios, p, now));
      PortfoliosLeaveKeys(db, db1.portfolios);
      MigrateKindsKeepsKeysUnique(db1, mock, MIGRATION_ORDER, newId, now);
  }

  /** Writing the portfolios touches no item collection. */
  lemma PortfoliosLeaveKeys(db: Database, portfolios: seq<Document>)
    requires AllKeysUnique(db)
    ensures AllKeysUnique(db.(portfolios := portfolios))
  {
    forall kind ensures UniqueKeys(db.(portfolios := portfolios).Items(kind), kind) {
      assert db.(portfolios := portfolios).Items(kind) == db.Items(kind);
    }
  }

  /** The item migrations write no portfolio. */
  lemma {:induction false} MigrateKindsKeepsPortfolios(db: Database, mock: Document, kinds: seq<Kind>,
                                                      newId: (Kind, nat) -> string, now: int)
    ensures MigrateKinds(db, mock, kinds, newId, now).0.portfolios == db.portfolios
    decreases |kinds|
  {
    if kinds != [] {
      var (db1, ok) := MigrateKind(db, mock, kinds[0], newId, now);
      assert db1.portfolios == db.portfolios;
      if ok {
        MigrateKindsKeepsPortfolios(db1, mock, kinds[1..], newId, now);
      }
    }
  }

  /** The migration never gives the "default" user a second portfolio: it
      replaces the one there is, or inserts one where there is none. */
  lemma MigrationKeepsOnePortfolio(db: Database, mock: Document, portfolioUuid: string,
                                   newId: (Kind, nat) -> string, now: int)
    requires CountMatches(db.portfolios, UserFilter(DEFAULT_USER)) <= 1
    ensures CountMatches(Migration(db, mock, portfolioUuid, newId, now).0.portfolios, UserFilter(DEFAULT_USER)) <= 1
  {
    match NewPortfolio(mock, portfolioUuid, now)
    case None =>
    case Some(p) =>
      var db1 := db.(portfolios := PortfolioUpsert(db.portfolios, p, now));
      MigrateKindsKeepsPortfolios(db1, mock, MIGRATION_ORDER, newId, now);
  }

  /** Running the migration twice leaves the "default" user one portfolio at
      most and one record per natural key, when the collections started
      empty. */
  lemma MigrationTwiceFromEmpty(mock: Document, portfolioUuid: string, newId: (Kind, nat) -> string, now: int,
                                portfolioUuid2: string, newId2: (Kind, nat) -> string, now2: int)
    ensures var db0 := Database([], [], [], [], [], []);
      var db1 := Migration(db0, mock, portfolioUuid, newId, now).0;
      AllKeysUnique(Migration(db1, mock, portfolioUuid2, newId2, now2).0)
    ensures var db0 := Database([], [], [], [], [], []);
      var db1 := Migration(db0, mock, portfolioUuid, newId, now).0;
      CountMatches(Migration(db1, mock, portfolioUuid2, newId2, now2).0.portfolios, UserFilter(DEFAULT_USER)) <= 1
  {
    var db0 := Database([], [], [], [], [], []);
    var db1 := Migration(db0, mock, portfolioUuid, newId, now).0;
    assert AllKeysUnique(db0);
    MigrationKeepsKeysUnique(db0, mock, portfolioUuid, newId, now);
    MigrationKeepsKeysUnique(db1, mock, portfolioUuid2, newId2, now2);
    MigrationKeepsOnePortfolio(db0, mock, portfolioUuid, newId, now);
    MigrationKeepsOnePortfolio(db1, mock, portfolioUuid2, newId2, now2);
  }

  /** A freshly created item is found by its id and removed by a delete with
      that id, leaving the collection as it was. */
  lemma CreateThenDelete(docs: seq<Document>, payload: ItemCreate, portfolioId: string, id: string, now: int)
    requires forall j :: 0 <= j < |docs| ==> !Matches(docs[j], IdFilter(id))
    ensures DeleteOne(InsertOne(docs, ItemDoc(NewItem(payload, portfolioId, id, now))), IdFilter(id)) == (docs, 1)
  {
    var doc := ItemDoc(NewItem(payload, portfolioId, id, now));
    var all := InsertOne(docs, doc);
    assert all[|docs|] == doc;
    assert FirstMatch(all, IdFilter(id)) == Some(|docs|);
    assert all[..|docs|] + all[|docs| + 1..] == docs;
  }

  // ---------------------------------------------------------------------
  // The service

  class PortfolioService {
    var portfolios: seq<Document>
    var skills: seq<Document>
    var experiences: seq<Document>
    var projects: seq<Document>
    var achievements: seq<Document>
    var publications: seq<Document>

    constructor(db: Database)
      ensures State() == db
    {
      portfolios := db.portfolios;
      skills := db.skills;
      experiences := db.experiences;
      projects := db.projects;
      achievements := db.achievements;
      publications := db.publications;
    }

    function State(): Database
      reads this
    {
      Database(portfolios, skills, experiences, projects, achievements, publications)
    }

    function Items(kind: Kind): seq<Document>
      reads this
    {
      State().Items(kind)
    }

    /** Replaces the collection of `kind`. */
    method SetItems(kind: Kind, docs: seq<Document>)
      modifies this
      ensures State() == old(State()).With(kind, docs)
    {
      match kind
      case Skills => skills := docs;
      case Experiences => experiences := docs;
      case Projects => projects := docs;
      case Achievements => achievements := docs;
      case Publications => publications := docs;
    }

    /** get_skills … get_publications: the items of the portfolio, sorted
        by position. */
    function GetItems(kind: Kind, portfolioId: string): (r: seq<Document>)
      reads this
      ensures SortedByOrder(r)
      ensures multiset(r) == multiset(Find(Items(kind), OwnerFilter(portfolioId)))
    {
      OwnedByOrder(Items(kind), portfolioId)
    }

    /** get_portfolio. */
    function GetPortfolio(portfolioId: string): Option<PortfolioExport>
      reads this
    {
      PortfolioOf(State(), portfolioId)
    }

    /** export_data: the same value as get_portfolio. */
    function ExportData(portfolioId: string): (r: Option<PortfolioExport>)
      reads this
      ensures r == GetPortfolio(portfolioId)
    {
      GetPortfolio(portfolioId)
    }

    /** create_or_update_portfolio: stores the dump, restamped with `now`,
        under the portfolio's user, and returns the portfolio as given. */
    method CreateOrUpdatePortfolio(p: Portfolio, now: int) returns (r: Portfolio)
      modifies this
      ensures r == p
      ensures State() == old(State()).(portfolios := PortfolioUpsert(old(portfolios), p, now))
    {
      portfolios := PortfolioUpsert(portfolios, p, now);
      r := p;
    }

    /** The body shared by the personal and about updates. */
    method UpdateSection(section: string, dump: Document, portfolioId: string) returns (ok: bool)
      modifies this
      ensures var kept := NonNullFields(dump);
        if kept == map[] then !ok && State() == old(State())
        else
          var (docs, modified) := UpdateOne(old(portfolios), UserFilter(portfolioId), NestedSet(section, kept));
          State() == old(State()).(portfolios := docs) && ok == (modified > 0)
    {
      var kept := NonNullFields(dump);
      if kept == map[] {
        return false;
      }
      var docs, modified := UpdateOne(portfolios, UserFilter(portfolioId), NestedSet(section, kept)).0,
                            UpdateOne(portfolios, UserFilter(portfolioId), NestedSet(section, kept)).1;
      portfolios := docs;
      ok := modified > 0;
    }

    /** update_personal_info: `$set` of "personal.<k>" for each field given. */
    method UpdatePersonalInfo(updates: PersonalInfoUpdate, portfolioId: string) returns (ok: bool)
      modifies this
      ensures var kept := NonNullFields(PersonalUpdateDoc(updates));
        if kept == map[] then !ok && State() == old(State())
        else
          var (docs, modified) := UpdateOne(old(portfolios), UserFilter(portfolioId), NestedSet("personal", kept));
          State() == old(State()).(portfolios := docs) && ok == (modified > 0)
    {
      ok := UpdateSection("personal", PersonalUpdateDoc(updates), portfolioId);
    }

    /** update_about_section: `$set` of "about.<k>" for each field given. */
    method UpdateAboutSection(updates: AboutSectionUpdate, portfolioId: string) returns (ok: bool)
      modifies this
      ensures var kept := NonNullFields(AboutUpdateDoc(updates));
        if kept == map[] then !ok && State() == old(State())
        else
          var (docs, modified) := UpdateOne(old(portfolios), UserFilter(portfolioId), NestedSet("about", kept));
          State() == old(State()).(portfolios := docs) && ok == (modified > 0)
    {
      ok := UpdateSection("about", AboutUpdateDoc(updates), portfolioId);
    }

    /** create_skill … create_publication: the payload, owned by the
        portfolio, with a fresh id and `now` as both timestamps, appended. */
    method CreateItem(payload: ItemCreate, portfolioId: string, id: string, now: int) returns (it: Item)
      modifies this
      ensures it == NewItem(payload, portfolioId, id, now)
      ensures State() == old(State()).With(CreateKind(payload), InsertOne(old(Items(CreateKind(payload))), ItemDoc(it)))
    {
      it := NewItem(payload, portfolioId, id, now);
      SetItems(CreateKind(payload), InsertOne(Items(CreateKind(payload)), ItemDoc(it)));
    }

    /** update_skill … update_publication: nothing happens for an all-None
        payload; otherwise the given fields and `updatedAt = now` are set on
        the item with that id, and the answer is whether it changed. */
    method UpdateItem(id: string, updates: ItemUpdate, now: int) returns (ok: bool)
      modifies this
      ensures var kind := UpdateKind(updates);
        var kept := NonNullFields(UpdateDoc(updates));
        if kept == map[] then !ok && State() == old(State())
        else
          var (docs, modified) := UpdateOne(old(Items(kind)), IdFilter(id), FieldSet(kept["updatedAt" := Date(now)]));
          State() == old(State()).With(kind, docs) && ok == (modified > 0)
      ensures ok ==>
        var kind := UpdateKind(updates);
        var i := FirstMatch(old(Items(kind)), IdFilter(id));
        && i.Some?
        && Items(kind) == old(Items(kind))[i.value := old(Items(kind))[i.value] + NonNullFields(UpdateDoc(updates))["updatedAt" := Date(now)]]
    {
      var kind := UpdateKind(updates);
      var kept := NonNullFields(UpdateDoc(updates));
      if kept == map[] {
        return false;
      }
      kept := kept["updatedAt" := Date(now)];
      var i := FirstMatch(Items(kind), IdFilter(id));
      if i.Some? {
        FieldSetOverwrites(Items(kind)[i.value], kept);
      }
      var r := UpdateOne(Items(kind), IdFilter(id), FieldSet(kept));
      SetItems(kind, r.0);
      ok := r.1 > 0;
    }

    /** delete_skill … delete_publication: removes the first item with that
        id; the answer is whether there was one. */
    method DeleteItem(kind: Kind, id: string) returns (ok: bool)
      modifies this
      ensures ok <==> exists j :: 0 <= j < |old(Items(kind))| && Matches(old(Items(kind))[j], IdFilter(id))
      ensures State() == old(State()).With(kind, DeleteOne(old(Items(kind)), IdFilter(id)).0)
      ensures CountMatches(Items(kind), IdFilter(id)) + (if ok then 1 else 0) == CountMatches(old(Items(kind)), IdFilter(id))
    {
      var r := DeleteOne(Items(kind), IdFilter(id));
      SetItems(kind, r.0);
      ok := r.1 > 0;
    }

    /** One of the migration's five loops, from reading its list on. */
    method MigrateCollection(mock: Document, kind: Kind, newId: (Kind, nat) -> string, now: int) returns (ok: bool)
      modifies this
      ensures (State(), ok) == MigrateKind(old(State()), mock, kind, newId, now)
    {
      var list := ListToMigrate(mock, kind);
      if list.None? {
        return false;
      }
      ok := MigrateList(kind, list.value, newId, now);
    }

    /** The loop over one list: each entry in turn becomes a record with
        its position as order, upserted under its natural key. The first
        entry that fails stops the loop; what was written stays. */
    method MigrateList(kind: Kind, items: seq<Value>, newId: (Kind, nat) -> string, now: int) returns (ok: bool)
      modifies this
      ensures var (docs, done) := MigrateItems(old(Items(kind)), kind, items, newId, now);
        State() == old(State()).With(kind, docs) && ok == done
    {
      var writes := Writes(kind, items, newId, now);
      var docs;
      docs, ok := UpsertEach(Items(kind), writes);
      SetItems(kind, docs);
    }

    /** migrate_mock_data: builds and stores the portfolio, then migrates
        skills, experience, projects, achievements and publications in that
        order; any failure ends it with false and the writes made so far. */
    method MigrateMockData(mock: Document, portfolioUuid: string, newId: (Kind, nat) -> string, now: int)
        returns (ok: bool)
      modifies this
      ensures (State(), ok) == Migration(old(State()), mock, portfolioUuid, newId, now)
    {
      var portfolio := NewPortfolio(mock, portfolioUuid, now);
      if portfolio.None? {
        return false;
      }
      var _ := CreateOrUpdatePortfolio(portfolio.value, now);
      ghost var spec := Migration(old(State()), mock, portfolioUuid, newId, now);
      var i := 0;
      ok := true;
      while i < |MIGRATION_ORDER| && ok
        invariant 0 <= i <= |MIGRATION_ORDER|
        invariant ok ==> MigrateKinds(State(), mock, MIGRATION_ORDER[i..], newId, now) == spec
        invariant !ok ==> (State(), false) == spec
      {
        ok := MigrateCollection(mock, MIGRATION_ORDER[i], newId, now);
        i := i + 1;
      }
    }
  }
}

/** The portfolio records (backend/models/portfolio.py): the portfolio with
    its personal and about sections, the five kinds of list item, the
    request payloads that create and update them, what `model_dump()`
    stores for each, and the validation that builds a record out of loosely
    typed input. Timestamps are integers; identifiers that the records draw
    from uuid4() are parameters. */
module PortfolioModels {
  import opened Wrappers
  import opened Documents

  datatype PersonalInfo = PersonalInfo(
    name: string, tagline: string, email: string,
    github: string, linkedin: string, kaggle: string)

  datatype Education = Education(institution: string, degree: string, duration: string)

  datatype AboutSection = AboutSection(title: string, description: string, education: Education)

  /** The default title of the about section. */
  const ABOUT_TITLE := "About Me"

  /** The user id a portfolio gets when none is given. */
  const DEFAULT_USER := "default"

  datatype Portfolio = Portfolio(
    id: string, userId: string, personal: PersonalInfo, about: AboutSection,
    createdAt: int, updatedAt: int)

  /** The five kinds of list item, one collection each. */
  datatype Kind = Skills | Experiences | Projects | Achievements | Publications

  /** A stored list item: SkillCategory, Experience, Project, Achievement or
      Publication. All carry an id, the owning portfolio, a title, a
      position and two timestamps. */
  datatype Item =
    | SkillCategory(
        id: string, portfolioId: string, title: string, items: seq<string>,
        order: int, createdAt: int, updatedAt: int)
    | Experience(
        id: string, portfolioId: string, title: string, company: string,
        location: string, duration: string, description: string, current: bool,
        order: int, createdAt: int, updatedAt: int)
    | Project(
        id: string, portfolioId: string, title: string, description: string,
        technologies: seq<string>, github: string, demo: string,
        featured: bool, placeholder: bool,
        order: int, createdAt: int, updatedAt: int)
    | Achievement(
        id: string, portfolioId: string, title: string, description: string,
        order: int, createdAt: int, updatedAt: int)
    | Publication(
        id: string, portfolioId: string, title: string, authors: string,
        publication: string, year: string, doi: Option<string>,
        order: int, createdAt: int, updatedAt: int)

  function ItemKind(it: Item): Kind {
    match it
    case SkillCategory(_, _, _, _, _, _, _) => Skills
    case Experience(_, _, _, _, _, _, _, _, _, _, _) => Experiences
    case Project(_, _, _, _, _, _, _, _, _, _, _, _) => Projects
    case Achievement(_, _, _, _, _, _, _) => Achievements
    case Publication(_, _, _, _, _, _, _, _, _, _) => Publications
  }

  /** The create payloads (SkillCategoryCreate … PublicationCreate). Their
      defaults are applied when the request body is read, before the service
      sees them. */
  datatype ItemCreate =
    | SkillCategoryCreate(title: string, items: seq<string>, order: int)
    | ExperienceCreate(
        title: string, company: string, location: string, duration: string,
        description: string, current: bool, order: int)
    | ProjectCreate(
        title: string, description: string, technologies: seq<string>,
        github: string, demo: string, featured: bool, placeholder: bool, order: int)
    | AchievementCreate(title: string, description: string, order: int)
    | PublicationCreate(
        title: string, authors: string, publication: string, year: string,
        doi: Option<string>, order: int)

  function CreateKind(c: ItemCreate): Kind {
    match c
    case SkillCategoryCreate(_, _, _) => Skills
    case ExperienceCreate(_, _, _, _, _, _, _) => Experiences
    case ProjectCreate(_, _, _, _, _, _, _, _) => Projects
    case AchievementCreate(_, _, _) => Achievements
    case PublicationCreate(_, _, _, _, _, _) => Publications
  }

  /** The update payloads: every field optional, None meaning "leave as is". */
  datatype PersonalInfoUpdate = PersonalInfoUpdate(
    name: Option<string>, tagline: Option<string>, email: Option<string>,
    github: Option<string>, linkedin: Option<string>, kaggle: Option<string>)

  datatype AboutSectionUpdate = AboutSectionUpdate(
    title: Option<string>, description: Option<string>, education: Option<Education>)

  datatype ItemUpdate =
    | SkillCategoryUpdate(title: Option<string>, items: Option<seq<string>>, order: Option<int>)
    | ExperienceUpdate(
        title: Option<string>, company: Option<string>, location: Option<string>,
        duration: Option<string>, description: Option<string>, current: Option<bool>,
        order: Option<int>)
    | ProjectUpdate(
        title: Option<string>, description: Option<string>, technologies: Option<seq<string>>,
        github: Option<string>, demo: Option<string>, featured: Option<bool>,
        placeholder: Option<bool>, order: Option<int>)
    | AchievementUpdate(title: Option<string>, description: Option<string>, order: Option<int>)
    | PublicationUpdate(
        title: Option<string>, authors: Option<string>, publication: Option<string>,
        year: Option<string>, doi: Option<string>, order: Option<int>)

  function UpdateKind(u: ItemUpdate): Kind {
    match u
    case SkillCategoryUpdate(_, _, _) => Skills
    case ExperienceUpdate(_, _, _, _, _, _, _) => Experiences
    case ProjectUpdate(_, _, _, _, _, _, _, _) => Projects
    case AchievementUpdate(_, _, _) => Achievements
    case PublicationUpdate(_, _, _, _, _, _) => Publications
  }

  // ---------------------------------------------------------------------
  // model_dump()

  function StrList(xs: seq<string>): Value {
    List(StrValues(xs))
  }

  function StrValues(xs: seq<string>): (vs: seq<Value>)
    ensures |vs| == |xs|
  {
    if xs == [] then [] else [Str(xs[0])] + StrValues(xs[1..])
  }

  function OptStr(o: Option<string>): Value {
    if o.Some? then Str(o.value) else Null
  }

  function OptBool(o: Option<bool>): Value {
    if o.Some? then Bool(o.value) else Null
  }

  function OptInt(o: Option<int>): Value {
    if o.Some? then Int(o.value) else Null
  }

  function OptStrList(o: Option<seq<string>>): Value {
    if o.Some? then StrList(o.value) else Null
  }

  function PersonalDoc(p: PersonalInfo): Document {
    map["name" := Str(p.name), "tagline" := Str(p.tagline), "email" := Str(p.email),
        "github" := Str(p.github), "linkedin" := Str(p.linkedin), "kaggle" := Str(p.kaggle)]
  }

  function EducationDoc(e: Education): Document {
    map["institution" := Str(e.institution), "degree" := Str(e.degree), "duration" := Str(e.duration)]
  }

  function AboutDoc(a: AboutSection): Document {
    map["title" := Str(a.title), "description" := Str(a.description), "education" := Doc(EducationDoc(a.education))]
  }

  function PortfolioDoc(p: Portfolio): Document {
    map["id" := Str(p.id), "userId" := Str(p.userId),
        "personal" := Doc(PersonalDoc(p.personal)), "about" := Doc(AboutDoc(p.about)),
        "createdAt" := Date(p.createdAt), "updatedAt" := Date(p.updatedAt)]
  }

  /** The fields a payload of the item's kind gives it, with its title and
      order. */
  function FieldsDoc(it: Item): (d: Document)
    ensures "title" in d && d["title"] == Str(it.title)
    ensures "order" in d && d["order"] == Int(it.order)
    ensures "id" !in d && "portfolioId" !in d && "createdAt" !in d && "updatedAt" !in d
  {
    match it
    case SkillCategory(_, _, title, items, order, _, _) =>
      map["title" := Str(title), "items" := StrList(items), "order" := Int(order)]
    case Experience(_, _, title, company, location, duration, description, current, order, _, _) =>
      map["title" := Str(title), "company" := Str(company), "location" := Str(location),
          "duration" := Str(duration), "description" := Str(description),
          "current" := Bool(current), "order" := Int(order)]
    case Project(_, _, title, description, technologies, github, demo, featured, placeholder, order, _, _) =>
      map["title" := Str(title), "description" := Str(description),
          "technologies" := StrList(technologies), "github" := Str(github), "demo" := Str(demo),
          "featured" := Bool(featured), "placeholder" := Bool(placeholder), "order" := Int(order)]
    case Achievement(_, _, title, description, order, _, _) =>
      map["title" := Str(title), "description" := Str(description), "order" := Int(order)]
    case Publication(_, _, title, authors, publication, year, doi, order, _, _) =>
      map["title" := Str(title), "authors" := Str(authors), "publication" := Str(publication),
          "year" := Str(year), "doi" := OptStr(doi), "order" := Int(order)]
  }

  /** The fields every item has besides its title and order. */
  function StampDoc(it: Item): Document {
    map["id" := Str(it.id), "portfolioId" := Str(it.portfolioId),
        "createdAt" := Date(it.createdAt), "updatedAt" := Date(it.updatedAt)]
  }

  /** What an item stores: the fields of its kind and those every item has.
      No payload field is named like a stamp, so the union loses nothing. */
  function ItemDoc(it: Item): (d: Document)
    ensures {"id", "portfolioId", "title", "order", "createdAt", "updatedAt"} <= d.Keys
    ensures d["id"] == Str(it.id) && d["portfolioId"] == Str(it.portfolioId)
    ensures d["title"] == Str(it.title) && d["order"] == Int(it.order)
    ensures d["createdAt"] == Date(it.createdAt) && d["updatedAt"] == Date(it.updatedAt)
  {
    StampDoc(it) + FieldsDoc(it)
  }

  /** What a create payload dumps to. */
  function CreateDoc(c: ItemCreate): Document {
    match c
    case SkillCategoryCreate(title, items, order) =>
      map["title" := Str(title), "items" := StrList(items), "order" := Int(order)]
    case ExperienceCreate(title, company, location, duration, description, current, order) =>
      map["title" := Str(title), "company" := Str(company), "location" := Str(location),
          "duration" := Str(duration), "description" := Str(description),
          "current" := Bool(current), "order" := Int(order)]
    case ProjectCreate(title, description, technologies, github, demo, featured, placeholder, order) =>
      map["title" := Str(title), "description" := Str(description),
          "technologies" := StrList(technologies), "github" := Str(github), "demo" := Str(demo),
          "featured" := Bool(featured), "placeholder" := Bool(placeholder), "order" := Int(order)]
    case AchievementCreate(title, description, order) =>
      map["title" := Str(title), "description" := Str(description), "order" := Int(order)]
    case PublicationCreate(title, authors, publication, year, doi, order) =>
      map["title" := Str(title), "authors" := Str(authors), "publication" := Str(publication),
          "year" := Str(year), "doi" := OptStr(doi), "order" := Int(order)]
  }

  /** What an update payload dumps to: every field, None as null. */
  function UpdateDoc(u: ItemUpdate): Document {
    match u
    case SkillCategoryUpdate(title, items, order) =>
      map["title" := OptStr(title), "items" := OptStrList(items), "order" := OptInt(order)]
    case ExperienceUpdate(title, company, location, duration, description, current, order) =>
      map["title" := OptStr(title), "company" := OptStr(company), "location" := OptStr(location),
          "duration" := OptStr(duration), "description" := OptStr(description),
          "current" := OptBool(current), "order" := OptInt(order)]
    case ProjectUpdate(title, description, technologies, github, demo, featured, placeholder, order) =>
      map["title" := OptStr(title), "description" := OptStr(description),
          "technologies" := OptStrList(technologies), "github" := OptStr(github),
          "demo" := OptStr(demo), "featured" := OptBool(featured),
          "placeholder" := OptBool(placeholder), "order" := OptInt(order)]
    case AchievementUpdate(title, description, order) =>
      map["title" := OptStr(title), "description" := OptStr(description), "order" := OptInt(order)]
    case PublicationUpdate(title, authors, publication, year, doi, order) =>
      map["title" := OptStr(title), "authors" := OptStr(authors), "publication" := OptStr(publication),
          "year" := OptStr(year), "doi" := OptStr(doi), "order" := OptInt(order)]
  }

  function PersonalUpdateDoc(u: PersonalInfoUpdate): Document {
    map["name" := OptStr(u.name), "tagline" := OptStr(u.tagline), "email" := OptStr(u.email),
        "github" := OptStr(u.github), "linkedin" := OptStr(u.linkedin), "kaggle" := OptStr(u.kaggle)]
  }

  function AboutUpdateDoc(u: AboutSectionUpdate): Document {
    map["title" := OptStr(u.title), "description" := OptStr(u.description),
        "education" := if u.education.Some? then Doc(EducationDoc(u.education.value)) else Null]
  }

  // ---------------------------------------------------------------------
  // Construction

  /** `Kind(**payload.model_dump(), portfolioId = ...)`: the stored item keeps
      every field of the payload and adds a fresh id, the owner and two
      equal timestamps. */
  function NewItem(c: ItemCreate, portfolioId: string, id: string, now: int): (it: Item)
    ensures ItemKind(it) == CreateKind(c)
    ensures it.id == id && it.portfolioId == portfolioId
    ensures it.createdAt == now && it.updatedAt == now
  {
    match c
    case SkillCategoryCreate(title, items, order) =>
      SkillCategory(id, portfolioId, title, items, order, now, now)
    case ExperienceCreate(title, company, location, duration, description, current, order) =>
      Experience(id, portfolioId, title, company, location, duration, description, current, order, now, now)
    case ProjectCreate(title, description, technologies, github, demo, featured, placeholder, order) =>
      Project(id, portfolioId, title, description, technologies, github, demo, featured, placeholder, order, now, now)
    case AchievementCreate(title, description, order) =>
      Achievement(id, portfolioId, title, description, order, now, now)
    case PublicationCreate(title, authors, publication, year, doi, order) =>
      Publication(id, portfolioId, title, authors, publication, year, doi, order, now, now)
  }

  /** Fields of the right operand win a union. */
  lemma UnionMatchesRight(a: Document, b: Document)
    ensures Matches(a + b, b)
  {
  }

  /** The stored document holds every field of the payload's dump unchanged. */
  lemma NewItemKeepsPayload(c: ItemCreate, portfolioId: string, id: string, now: int)
    ensures Matches(ItemDoc(NewItem(c, portfolioId, id, now)), CreateDoc(c))
  {
    var it := NewItem(c, portfolioId, id, now);
    assert FieldsDoc(it) == CreateDoc(c) by {
      match c
      case SkillCategoryCreate(_, _, _) =>
      case ExperienceCreate(_, _, _, _, _, _, _) =>
      case ProjectCreate(_, _, _, _, _, _, _, _) =>
      case AchievementCreate(_, _, _) =>
      case PublicationCreate(_, _, _, _, _, _) =>
    }
    UnionMatchesRight(StampDoc(it), FieldsDoc(it));
  }

  // ---------------------------------------------------------------------
  // Validation of loosely typed input. None stands for the exception that
  // a missing key, a wrong container or a failed validation raises.

  /** `v[key]`: only a dictionary holding the key can answer. */
  function Lookup(v: Value, key: string): (r: Option<Value>)
    ensures r.Some? <==> v.Doc? && key in v.fields
    ensures r.Some? ==> r.value == v.fields[key]
  {
    if v.Doc? && key in v.fields then Some(v.fields[key]) else None
  }

  /** `v.get(key, default)` on a dictionary. */
  function GetOr(v: Value, key: string, default: Value): Value
    requires v.Doc?
  {
    if key in v.fields then v.fields[key] else default
  }

  /** A `str` field: only a string is accepted. */
  function AsStr(v: Value): (r: Option<string>)
    ensures r.Some? ==> v == Str(r.value)
    ensures v.Str? ==> r.Some?
  {
    if v.Str? then Some(v.s) else None
  }

  /** An `Optional[str]` field: a string or null. */
  function AsOptStr(v: Value): (r: Option<Option<string>>)
    ensures r.Some? ==> v == OptStr(r.value)
    ensures v.Str? || v.Null? ==> r.Some?
  {
    if v.Str? then Some(Some(v.s)) else if v.Null? then Some(None) else None
  }

  /** A `bool` field: a boolean, or the integers 0 and 1. */
  function AsBool(v: Value): (r: Option<bool>)
    ensures r.Some? ==> v == Bool(r.value) || v == Int(if r.value then 1 else 0)
    ensures v.Bool? || v == Int(0) || v == Int(1) ==> r.Some?
  {
    match v
    case Bool(b) => Some(b)
    case Int(n) => if n == 0 then Some(false) else if n == 1 then Some(true) else None
    case _ => None
  }

  /** A `List[str]` field: a list of strings. */
  function AsStrList(v: Value): (r: Option<seq<string>>)
    ensures r.Some? ==> v == StrList(r.value)
    ensures v.List? && AllStr(v.items) ==> r.Some?
  {
    if v.List? then StrsOf(v.items) else None
  }

  /** The strings of a list whose every element is a string. */
  function StrsOf(items: seq<Value>): (r: Option<seq<string>>)
    ensures r.Some? ==> StrValues(r.value) == items
    ensures r.Some? <==> AllStr(items)
  {
    if items == [] then Some([])
    else if items[0].Str? then
      var rest :- StrsOf(items[1..]);
      assert ([items[0].s] + rest)[1..] == rest;
      Some([items[0].s] + rest)
    else None
  }

  /** Every element is a string. */
  predicate AllStr(items: seq<Value>) {
    forall i :: 0 <= i < |items| ==> items[i].Str?
  }

  /** `v` is a dictionary whose `key` holds a string. */
  predicate StrAt(v: Value, key: string) {
    v.Doc? && key in v.fields && v.fields[key].Str?
  }

  /** A required `str` field read out of a dictionary. */
  function RequiredStr(v: Value, key: string): (r: Option<string>)
    ensures r.Some? ==> v.Doc? && key in v.fields && v.fields[key] == Str(r.value)
    ensures StrAt(v, key) ==> r.Some?
  {
    var x :- Lookup(v, key);
    AsStr(x)
  }

  /** `PersonalInfo(**v)`. */
  function ValidatePersonal(v: Value): (r: Option<PersonalInfo>)
    ensures r.Some? ==> v.Doc? && Matches(v.fields, PersonalDoc(r.value))
    ensures r.Some? <==>
      (StrAt(v, "name") && StrAt(v, "tagline") && StrAt(v, "email")
       && StrAt(v, "github") && StrAt(v, "linkedin") && StrAt(v, "kaggle"))
  {
    var name :- RequiredStr(v, "name");
    var tagline :- RequiredStr(v, "tagline");
    var email :- RequiredStr(v, "email");
    var github :- RequiredStr(v, "github");
    var linkedin :- RequiredStr(v, "linkedin");
    var kaggle :- RequiredStr(v, "kaggle");
    Some(PersonalInfo(name, tagline, email, github, linkedin, kaggle))
  }

  /** An `Education` field given as a dictionary. */
  function ValidateEducation(v: Value): (r: Option<Education>)
    ensures r.Some? ==> v.Doc? && Matches(v.fields, EducationDoc(r.value))
    ensures r.Some? <==> StrAt(v, "institution") && StrAt(v, "degree") && StrAt(v, "duration")
  {
    var institution :- RequiredStr(v, "institution");
    var degree :- RequiredStr(v, "degree");
    var duration :- RequiredStr(v, "duration");
    Some(Education(institution, degree, duration))
  }

  /** `AboutSection(**v)`: the title defaults to "About Me" when absent. */
  function ValidateAbout(v: Value): (r: Option<AboutSection>)
    ensures r.Some? ==> v.Doc?
    ensures r.Some? && "title" !in v.fields ==> r.value.title == ABOUT_TITLE
    ensures r.Some? && "title" in v.fields ==> v.fields["title"] == Str(r.value.title)
    ensures r.Some? ==> "description" in v.fields && v.fields["description"] == Str(r.value.description)
    ensures r.Some? ==> "education" in v.fields && ValidateEducation(v.fields["education"]) == Some(r.value.education)
    ensures r.Some? <==>
      (v.Doc? && ("title" in v.fields ==> v.fields["title"].Str?) && StrAt(v, "description")
       && "education" in v.fields && ValidateEducation(v.fields["education"]).Some?)
  {
    var title :- if Lookup(v, "title").Some? then AsStr(v.fields["title"]) else if v.Doc? then Some(ABOUT_TITLE) else None;
    var description :- RequiredStr(v, "description");
    var education :- Lookup(v, "education");
    var e :- ValidateEducation(education);
    Some(AboutSection(title, description, e))
  }
}

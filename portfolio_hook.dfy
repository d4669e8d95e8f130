/** The portfolio data hook (usePortfolio in frontend/src/hooks/usePortfolio.js):
    four pieces of state — the last snapshot, the loading flag, the error
    message and the time of the last successful fetch — a time-to-live cache
    in front of the client's portfolio fetch, and in-memory shallow merges
    after the two update calls.

    The clock is a parameter: `now` is what Date.now() reads. React's state
    setters become field assignments; the hook's callbacks become methods. */
module PortfolioHook {
  import opened Wrappers
  import opened JsValue
  import opened ApiClient

  /** CACHE_CONFIG.PORTFOLIO_TTL: five minutes, in milliseconds. */
  const PORTFOLIO_TTL: nat := 5 * 60 * 1000

  /** `{ ...base, ...updates }`: every key of `updates` with its new value,
      every other key of `base` with its old one. */
  function ShallowMerge(base: Option<Json>, updates: Json): (m: map<string, Json>)
    ensures m.Keys == OwnOf(base).Keys + Own(updates).Keys
    ensures forall k :: k in Own(updates) ==> m[k] == Own(updates)[k]
    ensures forall k :: k in OwnOf(base) && k !in Own(updates) ==> m[k] == OwnOf(base)[k]
  {
    OwnOf(base) + Own(updates)
  }

  /** The state updater the two update callbacks pass to setPortfolioData:
      `prev => ({ ...prev, portfolio: { ...prev.portfolio,
                  [section]: { ...prev.portfolio[section], ...updates } } })`.
      None where it would throw, that is where `prev` or `prev.portfolio` is
      null or missing. */
  function MergeSection(prev: Json, section: string, updates: Json): (next: Option<Json>)
    ensures next.None? <==> prev.Null? || Prop(prev, "portfolio") in {None, Some(Null)}
    ensures next.Some? ==>
      var portfolio := Prop(prev, "portfolio").value;
      && next.value.Obj?
      // the snapshot keeps every other key
      && next.value.fields.Keys == Own(prev).Keys + {"portfolio"}
      && (forall k :: k in Own(prev) && k != "portfolio" ==> next.value.fields[k] == Own(prev)[k])
      // the portfolio keeps every other section
      && next.value.fields["portfolio"].Obj?
      && next.value.fields["portfolio"].fields.Keys == Own(portfolio).Keys + {section}
      && (forall k :: k in Own(portfolio) && k != section ==>
            next.value.fields["portfolio"].fields[k] == Own(portfolio)[k])
      // the section is the old one overridden key by key
      && next.value.fields["portfolio"].fields[section] == Obj(ShallowMerge(Prop(portfolio, section), updates))
  {
    if prev.Null? then None
    else
      var portfolio := Prop(prev, "portfolio");
      if portfolio.None? || portfolio.value.Null? then None
      else
        var merged := Obj(ShallowMerge(Prop(portfolio.value, section), updates));
        Some(Obj(Own(prev)["portfolio" := Obj(Own(portfolio.value)[section := merged])]))
  }

  /** Applying the same update twice leaves the snapshot as applying it once. */
  lemma MergeSectionIdempotent(prev: Json, section: string, updates: Json)
    requires MergeSection(prev, section, updates).Some?
    ensures var once := MergeSection(prev, section, updates).value;
      MergeSection(once, section, updates) == Some(once)
  {
    var once := MergeSection(prev, section, updates).value;
    var portfolio := Prop(prev, "portfolio").value;
    var merged := ShallowMerge(Prop(portfolio, section), updates);
    var p1 := Own(portfolio)[section := Obj(merged)];
    assert Prop(once, "portfolio") == Some(Obj(p1));
    assert Prop(Obj(p1), section) == Some(Obj(merged));
    assert ShallowMerge(Some(Obj(merged)), updates) == merged;
    assert p1[section := Obj(merged)] == p1;
    assert Own(once)["portfolio" := Obj(p1)] == Own(once);
  }

  /** The example of a personal update: `{ name: "X" }` on
      `{ name: "A", email: "b@c.com" }` gives `{ name: "X", email: "b@c.com" }`. */
  lemma PersonalMergeExample()
    ensures ShallowMerge(Some(Obj(map["name" := Str("A"), "email" := Str("b@c.com")])), Obj(map["name" := Str("X")]))
         == map["name" := Str("X"), "email" := Str("b@c.com")]
  {
  }

  /** The hook's state. `cfg` is the client configuration the API calls use. */
  class Hook {
    var portfolioData: Json
    var loading: bool
    var error: Option<string>
    var lastFetched: Option<nat>
    const cfg: Config

    /** The state on mount: no data, loading, no error, never fetched. */
    constructor(cfg: Config)
      ensures portfolioData == Null && loading && error == None && lastFetched == None
      ensures this.cfg == cfg
    {
      this.cfg := cfg;
      portfolioData := Null;
      loading := true;
      error := None;
      lastFetched := None;
    }

    /** isCacheValid(): false until a fetch has succeeded (a `lastFetched` of
        0 is falsy as well), then whether the data is younger than the TTL. */
    predicate IsCacheValid(now: nat)
      reads this
    {
      lastFetched.Some? && lastFetched.value != 0 && now - lastFetched.value < PORTFOLIO_TTL
    }

    /** The short-circuit condition of fetchPortfolio: cached data is served. */
    predicate ServesCache(forceRefresh: bool, now: nat)
      reads this
    {
      !forceRefresh && Truthy(portfolioData) && IsCacheValid(now)
    }

    /** fetchPortfolio(forceRefresh). `now` is the clock when it is called,
        `completedAt` the clock when the client call settles. */
    method FetchPortfolio(forceRefresh: bool, now: nat, completedAt: nat, network: (Request, nat) -> Attempt)
        returns (r: Result<Json, APIError>, attempts: nat)
      modifies this
      // cached data is returned with no call and no change of state
      ensures old(ServesCache(forceRefresh, now)) ==>
        r == Ok(old(portfolioData)) && attempts == 0
        && portfolioData == old(portfolioData) && loading == old(loading)
        && error == old(error) && lastFetched == old(lastFetched)
      // otherwise the client is called, and loading ends false
      ensures !old(ServesCache(forceRefresh, now)) ==>
        && (r, attempts) == RetryFrom(Calls(cfg, RequestFor(cfg, Operation.FetchPortfolio), network), RETRY_ATTEMPTS, 0)
        && 1 <= attempts <= RETRY_ATTEMPTS + 1
        && !loading
        // success: the new snapshot, stamped now, no error
        && (r.Ok? ==> portfolioData == r.value && lastFetched == Some(completedAt) && error == None)
        // failure: the old snapshot and stamp are kept, the message is shown, the error rethrown
        && (r.Err? ==> portfolioData == old(portfolioData) && lastFetched == old(lastFetched)
                       && error == Some(r.error.message))
    {
      if ServesCache(forceRefresh, now) {
        return Ok(portfolioData), 0;
      }
      loading := true;
      error := None;
      var waited;
      r, attempts, waited := Call(cfg, Operation.FetchPortfolio, network);
      if r.Ok? {
        portfolioData := r.value;
        lastFetched := Some(completedAt);
        error := None;
      } else {
        error := Some(r.error.message);
      }
      loading := false;
    }

    /** refresh(): fetchPortfolio(true), which always calls the client. */
    method Refresh(now: nat, completedAt: nat, network: (Request, nat) -> Attempt)
        returns (r: Result<Json, APIError>, attempts: nat)
      modifies this
      ensures (r, attempts) == RetryFrom(Calls(cfg, RequestFor(cfg, Operation.FetchPortfolio), network), RETRY_ATTEMPTS, 0)
      ensures 1 <= attempts <= RETRY_ATTEMPTS + 1
      ensures !loading
      ensures r.Ok? ==> portfolioData == r.value && lastFetched == Some(completedAt) && error == None
      ensures r.Err? ==> portfolioData == old(portfolioData) && lastFetched == old(lastFetched)
                         && error == Some(r.error.message)
    {
      r, attempts := FetchPortfolio(true, now, completedAt, network);
    }

    /** The common body of updatePersonalInfo and updateAboutSection. */
    method UpdateSection(section: string, op: Operation, updates: Json, network: (Request, nat) -> Attempt)
        returns (r: Result<bool, APIError>, attempts: nat)
      requires !op.GetStatus?
      modifies this
      ensures var (res, n) := RetryFrom(Calls(cfg, RequestFor(cfg, op), network), RETRY_ATTEMPTS, 0);
        && attempts == n && 1 <= attempts <= RETRY_ATTEMPTS + 1
        && (r.Ok? <==> res.Ok?)
        && (r.Err? ==> r.error == res.error)
      ensures !loading && lastFetched == old(lastFetched)
      // success: true, the section merged in memory, a previous error left as it was
      ensures r.Ok? ==>
        r.value && error == old(error)
        && portfolioData == (var next := MergeSection(old(portfolioData), section, updates);
                             if next.Some? then next.value else old(portfolioData))
      // failure: the snapshot untouched, the message shown, the error rethrown
      ensures r.Err? ==> portfolioData == old(portfolioData) && error == Some(r.error.message)
    {
      loading := true;
      var res, waited;
      res, attempts, waited := Call(cfg, op, network);
      if res.Ok? {
        var next := MergeSection(portfolioData, section, updates);
        if next.Some? {
          portfolioData := next.value;
        }
        r := Ok(true);
      } else {
        error := Some(res.error.message);
        r := Err(res.error);
      }
      loading := false;
    }

    /** updatePersonalInfo(updates). */
    method UpdatePersonalInfo(updates: Json, network: (Request, nat) -> Attempt)
        returns (r: Result<bool, APIError>, attempts: nat)
      modifies this
      ensures var (res, n) := RetryFrom(Calls(cfg, RequestFor(cfg, Operation.UpdatePersonalInfo(updates)), network), RETRY_ATTEMPTS, 0);
        attempts == n && (r.Ok? <==> res.Ok?) && (r.Err? ==> r.error == res.error)
      ensures !loading && lastFetched == old(lastFetched)
      ensures r.Ok? ==>
        r.value && error == old(error)
        && portfolioData == (var next := MergeSection(old(portfolioData), "personal", updates);
                             if next.Some? then next.value else old(portfolioData))
      ensures r.Err? ==> portfolioData == old(portfolioData) && error == Some(r.error.message)
    {
      r, attempts := UpdateSection("personal", Operation.UpdatePersonalInfo(updates), updates, network);
    }

    /** updateAboutSection(updates). */
    method UpdateAboutSection(updates: Json, network: (Request, nat) -> Attempt)
        returns (r: Result<bool, APIError>, attempts: nat)
      modifies this
      ensures var (res, n) := RetryFrom(Calls(cfg, RequestFor(cfg, Operation.UpdateAboutSection(updates)), network), RETRY_ATTEMPTS, 0);
        attempts == n && (r.Ok? <==> res.Ok?) && (r.Err? ==> r.error == res.error)
      ensures !loading && lastFetched == old(lastFetched)
      ensures r.Ok? ==>
        r.value && error == old(error)
        && portfolioData == (var next := MergeSection(old(portfolioData), "about", updates);
                             if next.Some? then next.value else old(portfolioData))
      ensures r.Err? ==> portfolioData == old(portfolioData) && error == Some(r.error.message)
    {
      r, attempts := UpdateSection("about", Operation.UpdateAboutSection(updates), updates, network);
    }

    /** `hasData`: `!!portfolioData`. */
    predicate HasData()
      reads this
    {
      Truthy(portfolioData)
    }

    /** The `data` of usePortfolioSection(section), and the lists usePortfolio
        exposes: `portfolioData?.[section] || []`. */
    function SectionData(section: string): (data: Json)
      reads this
      ensures Truthy(data)
      ensures Prop(portfolioData, section).Some? && Truthy(Prop(portfolioData, section).value) ==>
        data == Prop(portfolioData, section).value
      ensures !(Prop(portfolioData, section).Some? && Truthy(Prop(portfolioData, section).value)) ==>
        data == Arr([])
    {
      Or(Prop(portfolioData, section), Arr([]))
    }
  }

  /** Two fetchPortfolio(false) calls within the TTL of a successful fetch: the
      second returns the same snapshot and makes no call of its own. */
  method CachedWithinTtl(cfg: Config, t0: nat, t1: nat, t2: nat, network: (Request, nat) -> Attempt)
      returns (first: Result<Json, APIError>, second: Result<Json, APIError>, secondAttempts: nat)
    requires 0 < t1 <= t2 < t1 + PORTFOLIO_TTL
    ensures first.Ok? && Truthy(first.value) ==> second == first && secondAttempts == 0
    ensures first.Err? ==> secondAttempts >= 1
  {
    var hook := new Hook(cfg);
    var n;
    first, n := hook.FetchPortfolio(false, t0, t1, network);
    second, secondAttempts := hook.FetchPortfolio(false, t2, t2, network);
  }
}

/** The vendored schema catalog: the depth-first closure check (fabric/deploy.py:258-287) and the
    breadth-first refresh that builds it (fabric/schemas/update_microsoft_schemas.py:81-94). */
module SchemaClosure {
  import opened Basics
  import opened JsonReferences

  type Url = string

  /** URL arithmetic: `resolve(u, r)` is `urldefrag(urljoin(u, r)).url`, `defrag` is `urldefrag(u).url`,
      and `valid` accepts the approved Microsoft origin. */
  datatype Environment = Environment(resolve: (Url, string) -> Url, defrag: Url -> Url, valid: Url -> bool)

  datatype ClosureError = Missing(url: Url) | InvalidOrigin(url: Url) | Unused(urls: set<Url>)

  datatype FetchError = Unreachable(url: Url) | Rejected(url: Url)

  /** u refers to v: a `$ref` of u resolves to v, which is neither empty nor u itself. */
  ghost predicate RefersTo(env: Environment, schemas: map<Url, Json>, u: Url, v: Url) {
    u in schemas && v != "" && v != u && exists r :: r in References(schemas[u]) && env.resolve(u, r) == v
  }

  ghost predicate IsPath(env: Environment, schemas: map<Url, Json>, roots: seq<Url>, path: seq<Url>) {
    && |path| > 0 && path[0] in roots
    && forall i | 0 <= i < |path| - 1 :: RefersTo(env, schemas, path[i], path[i + 1])
  }

  ghost predicate Reachable(env: Environment, schemas: map<Url, Json>, roots: seq<Url>, u: Url) {
    exists path :: IsPath(env, schemas, roots, path) && path[|path| - 1] == u
  }

  /** The catalog holds exactly what the roots reach, and every reference is valid and present. */
  ghost predicate Closed(env: Environment, schemas: map<Url, Json>, roots: seq<Url>) {
    && (forall u | u in roots :: u in schemas)
    && (forall u, v | RefersTo(env, schemas, u, v) :: env.valid(v) && v in schemas)
    && (forall u | u in schemas :: Reachable(env, schemas, roots, u))
  }

  lemma RootReachable(env: Environment, schemas: map<Url, Json>, roots: seq<Url>, u: Url)
    requires u in roots
    ensures Reachable(env, schemas, roots, u)
  {
    assert IsPath(env, schemas, roots, [u]);
  }

  lemma StepReachable(env: Environment, schemas: map<Url, Json>, roots: seq<Url>, u: Url, v: Url)
    requires Reachable(env, schemas, roots, u) && RefersTo(env, schemas, u, v)
    ensures Reachable(env, schemas, roots, v)
  {
    var path :| IsPath(env, schemas, roots, path) && path[|path| - 1] == u;
    assert IsPath(env, schemas, roots, path + [v]);
    assert (path + [v])[|path|] == v;
  }

  /** A set that contains the roots and is closed under references contains all that is reachable. */
  lemma {:induction false} PathStays(env: Environment, schemas: map<Url, Json>, roots: seq<Url>, s: set<Url>,
                                     path: seq<Url>)
    requires (forall u | u in roots :: u in s) && (forall u, v | u in s && RefersTo(env, schemas, u, v) :: v in s)
    requires IsPath(env, schemas, roots, path)
    ensures path[|path| - 1] in s
  {
    if |path| > 1 {
      var front := path[..|path| - 1];
      assert forall i | 0 <= i < |front| - 1 :: RefersTo(env, schemas, front[i], front[i + 1]) by {
        forall i | 0 <= i < |front| - 1 ensures RefersTo(env, schemas, front[i], front[i + 1]) {
          assert RefersTo(env, schemas, path[i], path[i + 1]);
        }
      }
      PathStays(env, schemas, roots, s, front);
      assert RefersTo(env, schemas, path[|path| - 2], path[|path| - 1]);
    }
  }

  // --- The checker ---------------------------------------------------------------------------

  /** The state of the depth-first search. */
  ghost predicate Searching(env: Environment, schemas: map<Url, Json>, roots: seq<Url>, reachable: set<Url>,
                            pending: seq<Url>) {
    && (forall u | u in reachable :: u in schemas && Reachable(env, schemas, roots, u))
    && (forall u | u in pending :: (u in schemas || u in roots) && Reachable(env, schemas, roots, u))
    && (forall u | u in roots :: u in reachable || u in pending)
    && (forall u, v | u in reachable && RefersTo(env, schemas, u, v) ::
        env.valid(v) && v in schemas && (v in reachable || v in pending))
  }

  /** The search inside one schema, after some of its references. */
  ghost predicate Expanding(env: Environment, schemas: map<Url, Json>, roots: seq<Url>, reachable: set<Url>,
                            pending: seq<Url>, u: Url, done: seq<string>)
  {
    && u in reachable
    && (forall w | w in reachable :: w in schemas && Reachable(env, schemas, roots, w))
    && (forall w | w in pending :: (w in schemas || w in roots) && Reachable(env, schemas, roots, w))
    && (forall w | w in roots :: w in reachable || w in pending)
    && (forall w, v | w in reachable && w != u && RefersTo(env, schemas, w, v) ::
          env.valid(v) && v in schemas && (v in reachable || v in pending))
    && (forall r | r in done && env.resolve(u, r) != "" && env.resolve(u, r) != u ::
          var v := env.resolve(u, r); env.valid(v) && v in schemas && (v in reachable || v in pending))
  }

  lemma ExpansionBegins(env: Environment, schemas: map<Url, Json>, roots: seq<Url>, reachable: set<Url>,
                        pending: seq<Url>)
    requires |pending| > 0 && Searching(env, schemas, roots, reachable, pending)
    ensures var u, rest := pending[|pending| - 1], pending[..|pending| - 1];
      && (u in reachable ==> Searching(env, schemas, roots, reachable, rest))
      && (u in schemas && u !in reachable ==> Expanding(env, schemas, roots, reachable + {u}, rest, u, []))
      && (u !in schemas ==> u in roots)
  {
    var u, rest := pending[|pending| - 1], pending[..|pending| - 1];
    assert pending == rest + [u];
    assert u in pending;
  }

  lemma ExpansionEnds(env: Environment, schemas: map<Url, Json>, roots: seq<Url>, reachable: set<Url>,
                      pending: seq<Url>, u: Url)
    requires u in schemas && Expanding(env, schemas, roots, reachable, pending, u, References(schemas[u]))
    ensures Searching(env, schemas, roots, reachable, pending)
  {
  }

  lemma SearchDecides(env: Environment, schemas: map<Url, Json>, roots: seq<Url>, reachable: set<Url>)
    requires Searching(env, schemas, roots, reachable, [])
    ensures schemas.Keys == reachable <==> Closed(env, schemas, roots)
    ensures forall u :: Reachable(env, schemas, roots, u) <==> u in reachable
  {
    forall u | Reachable(env, schemas, roots, u) ensures u in reachable {
      var path :| IsPath(env, schemas, roots, path) && path[|path| - 1] == u;
      PathStays(env, schemas, roots, reachable, path);
    }
  }

  lemma ExpandedIsReachable(env: Environment, schemas: map<Url, Json>, roots: seq<Url>, reachable: set<Url>,
                            pending: seq<Url>, u: Url, done: seq<string>)
    requires Expanding(env, schemas, roots, reachable, pending, u, done)
    ensures u in reachable && Reachable(env, schemas, roots, u)
  {
  }

  /** The next reference leads nowhere new, or joins what is pending. */
  lemma ExpandingNext(env: Environment, schemas: map<Url, Json>, roots: seq<Url>, reachable: set<Url>,
                      pending: seq<Url>, u: Url, done: seq<string>, r: string)
    requires Expanding(env, schemas, roots, reachable, pending, u, done)
    ensures var v := env.resolve(u, r);
      && (v == "" || v == u || (env.valid(v) && v in schemas && v in reachable) ==>
            Expanding(env, schemas, roots, reachable, pending, u, done + [r]))
      && (env.valid(v) && v in schemas && Reachable(env, schemas, roots, v) ==>
            Expanding(env, schemas, roots, reachable, pending + [v], u, done + [r]))
  {
    hide Reachable, RefersTo;
  }

  method ExpandSchema(env: Environment, schemas: map<Url, Json>, ghost roots: seq<Url>, reachable: set<Url>,
                      pending0: seq<Url>, u: Url)
    returns (pending: seq<Url>, error: Option<ClosureError>)
    requires u in schemas && Expanding(env, schemas, roots, reachable, pending0, u, [])
    ensures error.None? ==> Searching(env, schemas, roots, reachable, pending)
    ensures error.Some? ==> !Closed(env, schemas, roots) && !error.value.Unused?
    ensures error.Some? ==> RefersTo(env, schemas, u, error.value.url)
    ensures error.Some? && error.value.Missing? ==> error.value.url !in schemas
    ensures error.Some? && error.value.InvalidOrigin? ==> !env.valid(error.value.url)
  {
    ExpandedIsReachable(env, schemas, roots, reachable, pending0, u, []);
    hide Reachable, RefersTo, Expanding, Searching, References;
    pending := pending0;
    var references := References(schemas[u]);
    TakeAll(references);
    for i := 0 to |references|
      invariant Expanding(env, schemas, roots, reachable, pending, u, references[..i])
    {
      var v := env.resolve(u, references[i]);
      TakeNext(references, i);
      ExpandingNext(env, schemas, roots, reachable, pending, u, references[..i], references[i]);
      if v == "" || v == u { continue; }
      IsReference(env, schemas, u, references[i]);
      if !env.valid(v) { return pending, Some(InvalidOrigin(v)); }
      if v !in schemas { return pending, Some(Missing(v)); }
      if v !in reachable {
        StepReachable(env, schemas, roots, u, v);
        pending := pending + [v];
      }
    }
    ExpansionEnds(env, schemas, roots, reachable, pending, u);
    return pending, None;
  }

  /** Accepts exactly the catalogs that equal the reachable closure of the roots with every reference
      valid and present; what it reports otherwise is a genuine defect. */
  method ValidateClosure(env: Environment, schemas: map<Url, Json>, roots: seq<Url>)
    returns (r: Result<set<Url>, ClosureError>)
    ensures r.Ok? <==> Closed(env, schemas, roots)
    ensures r.Ok? ==> r.value == schemas.Keys
    ensures r.Err? && r.error.Missing? ==> r.error.url !in schemas && Reachable(env, schemas, roots, r.error.url)
    ensures r.Err? && r.error.InvalidOrigin? ==> !env.valid(r.error.url) && Reachable(env, schemas, roots, r.error.url)
    ensures r.Err? && r.error.Unused? ==> r.error.urls == set u | u in schemas && !Reachable(env, schemas, roots, u)
  {
    hide Reachable, RefersTo;
    var reachable: set<Url> := {};
    var pending := Reversed(roots);
    ReversedMembers(roots);
    forall u | u in roots ensures Reachable(env, schemas, roots, u) { RootReachable(env, schemas, roots, u); }
    while |pending| > 0
      invariant Searching(env, schemas, roots, reachable, pending)
      decreases schemas.Keys - reachable, |pending|
    {
      ExpansionBegins(env, schemas, roots, reachable, pending);
      var url := pending[|pending| - 1];
      pending := pending[..|pending| - 1];
      if url in reachable { continue; }
      if url !in schemas { return Err(Missing(url)); }
      reachable := reachable + {url};
      var error: Option<ClosureError>;
      pending, error := ExpandSchema(env, schemas, roots, reachable, pending, url);
      if error.Some? {
        StepReachable(env, schemas, roots, url, error.value.url);
        return Err(error.value);
      }
    }
    assert pending == [];
    SearchDecides(env, schemas, roots, reachable);
    if schemas.Keys != reachable { return Err(Unused(schemas.Keys - reachable)); }
    return Ok(reachable);
  }

  function Reversed(s: seq<Url>): seq<Url> { if |s| == 0 then [] else Reversed(s[1..]) + [s[0]] }

  lemma {:induction false} ReversedMembers(s: seq<Url>)
    ensures forall u :: u in Reversed(s) <==> u in s
  {
    if |s| > 0 { ReversedMembers(s[1..]); }
  }

  // --- The refresh ------------------------------------------------------------------------------

  /** Resolved URLs carry no fragment, and removing the fragment of such a URL changes nothing. */
  ghost predicate Sensible(env: Environment) {
    (forall u, r :: '#' !in env.resolve(u, r)) && forall u | '#' !in u :: env.defrag(u) == u
  }

  ghost predicate PlainRoots(roots: seq<Url>) { forall u | u in roots :: u != "" && '#' !in u }

  /** The fetched part of the site while the queue is worked off. */
  ghost predicate Fetching(env: Environment, site: map<Url, Json>, roots: seq<Url>, schemas: map<Url, Json>,
                           queue: seq<Url>) {
    && (forall u | u in schemas :: u in site && schemas[u] == site[u] && env.valid(u) && Reachable(env, site, roots, u))
    && (forall u | u in queue :: u != "" && '#' !in u && Reachable(env, site, roots, u))
    && (forall u | u in roots :: u in schemas || u in queue)
    && (forall u, v | u in schemas && RefersTo(env, site, u, v) :: v in schemas || v in queue)
  }

  ghost predicate Following(env: Environment, site: map<Url, Json>, roots: seq<Url>, schemas: map<Url, Json>,
                            queue: seq<Url>, u: Url, done: seq<string>)
  {
    && u in schemas
    && (forall w | w in schemas :: w in site && schemas[w] == site[w] && env.valid(w) && Reachable(env, site, roots, w))
    && (forall w | w in queue :: w != "" && '#' !in w && Reachable(env, site, roots, w))
    && (forall w | w in roots :: w in schemas || w in queue)
    && (forall w, v | w in schemas && w != u && RefersTo(env, site, w, v) :: v in schemas || v in queue)
    && (forall r | r in done && env.resolve(u, r) != "" :: env.resolve(u, r) in schemas || env.resolve(u, r) in queue)
  }

  lemma FollowingBegins(env: Environment, site: map<Url, Json>, roots: seq<Url>, schemas: map<Url, Json>,
                        queue: seq<Url>)
    requires Sensible(env) && |queue| > 0 && Fetching(env, site, roots, schemas, queue)
    ensures env.defrag(queue[0]) == queue[0] && queue[0] != ""
    ensures queue[0] in schemas ==> Fetching(env, site, roots, schemas, queue[1..])
    ensures queue[0] in site && queue[0] !in schemas && env.valid(queue[0]) ==>
      Following(env, site, roots, schemas[queue[0] := site[queue[0]]], queue[1..], queue[0], [])
  {
    hide Reachable, RefersTo;
    HeadOrTail(queue);
  }

  lemma IsReference(env: Environment, schemas: map<Url, Json>, u: Url, r: string)
    requires u in schemas && r in References(schemas[u]) && env.resolve(u, r) != "" && env.resolve(u, r) != u
    ensures RefersTo(env, schemas, u, env.resolve(u, r))
  {
  }

  /** The next reference is nothing new, or joins the queue. */
  lemma FollowingNext(env: Environment, site: map<Url, Json>, roots: seq<Url>, schemas: map<Url, Json>,
                      queue: seq<Url>, u: Url, done: seq<string>, r: string)
    requires Sensible(env) && Following(env, site, roots, schemas, queue, u, done)
    ensures var v := env.resolve(u, r);
      && (v == "" || v in schemas ==> Following(env, site, roots, schemas, queue, u, done + [r]))
      && (v != "" && Reachable(env, site, roots, v) ==>
            Following(env, site, roots, schemas, queue + [v], u, done + [r]))
  {
    hide Reachable, RefersTo;
  }

  lemma FollowingEnds(env: Environment, site: map<Url, Json>, roots: seq<Url>, schemas: map<Url, Json>, queue: seq<Url>,
                      u: Url)
    requires u in schemas && Following(env, site, roots, schemas, queue, u, References(schemas[u]))
    ensures Fetching(env, site, roots, schemas, queue)
  {
  }

  lemma FollowedIsReachable(env: Environment, site: map<Url, Json>, roots: seq<Url>, schemas: map<Url, Json>,
                            queue: seq<Url>, u: Url, done: seq<string>)
    requires Following(env, site, roots, schemas, queue, u, done)
    ensures u in schemas && u in site && schemas[u] == site[u] && Reachable(env, site, roots, u)
  {
  }

  method FollowReferences(env: Environment, ghost site: map<Url, Json>, ghost roots: seq<Url>, schemas: map<Url, Json>,
                          queue0: seq<Url>, u: Url)
    returns (queue: seq<Url>, rejected: Option<Url>)
    requires Sensible(env) && u in schemas && Following(env, site, roots, schemas, queue0, u, [])
    ensures rejected.None? ==> Fetching(env, site, roots, schemas, queue)
    ensures rejected.Some? ==> !env.valid(rejected.value) && Reachable(env, site, roots, rejected.value)
  {
    FollowedIsReachable(env, site, roots, schemas, queue0, u, []);
    hide Reachable, RefersTo, Following, Fetching, References, Sensible;
    queue := queue0;
    var references := References(schemas[u]);
    TakeAll(references);
    for i := 0 to |references|
      invariant Following(env, site, roots, schemas, queue, u, references[..i])
    {
      var v := env.resolve(u, references[i]);
      TakeNext(references, i);
      FollowingNext(env, site, roots, schemas, queue, u, references[..i], references[i]);
      if v != "" && v !in schemas {
        IsReference(env, site, u, references[i]);
        StepReachable(env, site, roots, u, v);
        if !env.valid(v) { return queue, Some(v); }
        queue := queue + [v];
      }
    }
    FollowingEnds(env, site, roots, schemas, queue, u);
    return queue, None;
  }

  /** Fetches the roots and everything they refer to. `site` is what a fetch returns: the documents served at their
      own URL; a URL outside it cannot be fetched. Succeeds exactly when all that the roots reach is approved and
      served, with exactly that; what it reports otherwise is reachable and is not. */
  method RefreshCatalog(env: Environment, site: map<Url, Json>, roots: seq<Url>)
    returns (r: Result<map<Url, Json>, FetchError>)
    requires Sensible(env) && PlainRoots(roots)
    ensures r.Ok? <==> forall u | Reachable(env, site, roots, u) :: env.valid(u) && u in site
    ensures r.Ok? ==> forall u :: u in r.value <==> Reachable(env, site, roots, u)
    ensures r.Ok? ==> forall u | u in r.value :: u in site && r.value[u] == site[u]
    ensures r.Ok? ==> Closed(env, r.value, roots)
    ensures r.Err? ==> Reachable(env, site, roots, r.error.url)
    ensures r.Err? ==> if r.error.Unreachable? then r.error.url !in site else !env.valid(r.error.url)
  {
    var schemas: map<Url, Json> := map[];
    var queue := roots;
    forall u | u in roots ensures Reachable(env, site, roots, u) { RootReachable(env, site, roots, u); }
    while |queue| > 0
      invariant Fetching(env, site, roots, schemas, queue)
      decreases site.Keys - schemas.Keys, |queue|
    {
      FollowingBegins(env, site, roots, schemas, queue);
      var url := env.defrag(queue[0]);
      queue := queue[1..];
      if url == "" || url in schemas { continue; }
      if !env.valid(url) { return Err(Rejected(url)); }
      if url !in site { return Err(Unreachable(url)); }
      schemas := schemas[url := site[url]];
      var rejected: Option<Url>;
      queue, rejected := FollowReferences(env, site, roots, schemas, queue, url);
      if rejected.Some? { return Err(Rejected(rejected.value)); }
    }
    FetchedIsClosed(env, site, roots, schemas);
    FetchedIsReachable(env, site, roots, schemas);
    return Ok(schemas);
  }

  lemma FetchedIsReachable(env: Environment, site: map<Url, Json>, roots: seq<Url>, schemas: map<Url, Json>)
    requires Fetching(env, site, roots, schemas, [])
    ensures forall u :: Reachable(env, site, roots, u) <==> u in schemas
  {
    forall u | Reachable(env, site, roots, u) ensures u in schemas {
      var path :| IsPath(env, site, roots, path) && path[|path| - 1] == u;
      PathStays(env, site, roots, schemas.Keys, path);
    }
  }

  /** References of the fetched part are references of the site, and paths stay in it. */
  lemma FetchedIsClosed(env: Environment, site: map<Url, Json>, roots: seq<Url>, schemas: map<Url, Json>)
    requires Fetching(env, site, roots, schemas, [])
    ensures Closed(env, schemas, roots)
  {
    forall u, v | RefersTo(env, schemas, u, v) ensures env.valid(v) && v in schemas {
      assert RefersTo(env, site, u, v);
    }
    forall u | u in schemas ensures Reachable(env, schemas, roots, u) {
      var path :| IsPath(env, site, roots, path) && path[|path| - 1] == u;
      PathInPart(env, site, roots, schemas, path);
    }
  }

  lemma {:induction false} PathInPart(env: Environment, site: map<Url, Json>, roots: seq<Url>, schemas: map<Url, Json>,
                                      path: seq<Url>)
    requires Fetching(env, site, roots, schemas, []) && IsPath(env, site, roots, path)
    ensures IsPath(env, schemas, roots, path) && path[|path| - 1] in schemas
  {
    if |path| > 1 {
      var front := path[..|path| - 1];
      forall i | 0 <= i < |front| - 1 ensures RefersTo(env, site, front[i], front[i + 1]) {
        assert RefersTo(env, site, path[i], path[i + 1]);
      }
      PathInPart(env, site, roots, schemas, front);
      assert RefersTo(env, site, path[|path| - 2], path[|path| - 1]);
      forall i | 0 <= i < |path| - 1 ensures RefersTo(env, schemas, path[i], path[i + 1]) {
        if i < |path| - 2 { assert RefersTo(env, schemas, front[i], front[i + 1]); }
      }
    }
  }

  // --- The refreshed catalog passes the check ------------------------------------------------------

  function Written(schemas: map<Url, Json>): map<Url, Json> { map u | u in schemas :: SortedKeys(schemas[u]) }

  lemma WrittenRefersTheSame(env: Environment, schemas: map<Url, Json>, u: Url, v: Url)
    requires forall w | w in schemas :: UniqueKeys(schemas[w])
    ensures RefersTo(env, Written(schemas), u, v) <==> RefersTo(env, schemas, u, v)
  {
    if u in schemas {
      forall r ensures r in References(SortedKeys(schemas[u])) <==> r in References(schemas[u]) {
        SortedKeysMention(schemas[u], r);
        ReferencesAreMentions(schemas[u], r);
        ReferencesAreMentions(SortedKeys(schemas[u]), r);
      }
    }
  }

  /** What a refresh writes, with its keys sorted, is accepted by the closure check. */
  lemma RefreshedCatalogIsAccepted(env: Environment, schemas: map<Url, Json>, roots: seq<Url>)
    requires Closed(env, schemas, roots) && forall w | w in schemas :: UniqueKeys(schemas[w])
    ensures Closed(env, Written(schemas), roots)
  {
    var written := Written(schemas);
    hide RefersTo, Reachable;
    forall u, v ensures RefersTo(env, written, u, v) <==> RefersTo(env, schemas, u, v) {
      WrittenRefersTheSame(env, schemas, u, v);
    }
    forall u | u in written ensures Reachable(env, written, roots, u) {
      SameReach(env, schemas, written, roots, u);
    }
  }

  lemma SameReach(env: Environment, schemas: map<Url, Json>, others: map<Url, Json>, roots: seq<Url>, u: Url)
    requires forall v, w :: RefersTo(env, schemas, v, w) ==> RefersTo(env, others, v, w)
    requires Reachable(env, schemas, roots, u)
    ensures Reachable(env, others, roots, u)
  {
    hide RefersTo;
    var path :| IsPath(env, schemas, roots, path) && path[|path| - 1] == u;
    assert IsPath(env, others, roots, path);
  }
}

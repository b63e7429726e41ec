/** The menu controller: the public, filtered menu and the admin's create,
    update, delete and availability toggle. */
module Menu {
  import opened Common
  import opened Models
  import opened Store
  import opened Queries
  import opened Sorting

  // -----------------------------------------------------------------------
  // Case-insensitive substring search

  /** ASCII lower case (the `i` flag of a regular expression, for the
      letters A to Z). */
  function LowerChar(c: char): (r: char)
    ensures 'A' <= c <= 'Z' <==> r != c
    ensures !('A' <= r <= 'Z')
    ensures 'a' <= r <= 'z' <==> 'a' <= c <= 'z' || 'A' <= c <= 'Z'
  {
    if 'A' <= c <= 'Z' then (c as int + 32) as char else c
  }

  /** The string folded to lower case, character by character: no capital
      is left, and a string without capitals is its own folding. */
  function Lower(s: string): (r: string)
    ensures |r| == |s| && forall i :: 0 <= i < |s| ==> r[i] == LowerChar(s[i])
    ensures forall i :: 0 <= i < |r| ==> !('A' <= r[i] <= 'Z')
    ensures (forall i :: 0 <= i < |s| ==> !('A' <= s[i] <= 'Z')) ==> r == s
  {
    seq(|s|, i requires 0 <= i < |s| => LowerChar(s[i]))
  }

  /** `t` occurs in `s` at index `i`. */
  predicate OccursAt(s: string, t: string, i: nat) {
    i + |t| <= |s| && s[i..i + |t|] == t
  }

  /** `t` occurs somewhere in `s`. */
  function Contains(s: string, t: string): bool
    decreases |s|
  {
    if OccursAt(s, t, 0) then true
    else if |s| == 0 then false
    else Contains(s[1..], t)
  }

  /** `Contains` is a search for an occurrence. */
  lemma {:induction false} ContainsOccurs(s: string, t: string)
    ensures Contains(s, t) <==> exists i: nat :: OccursAt(s, t, i)
    decreases |s|
  {
    if OccursAt(s, t, 0) {
    } else if |s| == 0 {
      assert forall i: nat :: !OccursAt(s, t, i);
    } else {
      ContainsOccurs(s[1..], t);
      forall i: nat | OccursAt(s[1..], t, i) ensures OccursAt(s, t, i + 1) {
        assert s[1..][i..i + |t|] == s[i + 1..i + 1 + |t|];
      }
      forall i: nat | OccursAt(s, t, i) ensures i > 0 && OccursAt(s[1..], t, i - 1) {
        assert s[1..][i - 1..i - 1 + |t|] == s[i..i + |t|];
      }
    }
  }

  /** The search `q` with the `i` option, read as a literal. */
  predicate ContainsCI(s: string, q: string) {
    Contains(Lower(s), Lower(q))
  }

  lemma LowerIdempotent(s: string)
    ensures Lower(Lower(s)) == Lower(s)
  {
  }

  /** Only the letters of the query matter, not their case. */
  lemma SearchIgnoresQueryCase(s: string, q: string)
    ensures ContainsCI(s, Lower(q)) == ContainsCI(s, q)
  {
    LowerIdempotent(q);
  }

  // -----------------------------------------------------------------------
  // The menu filter

  /** The query string of `GET /api/menu`. */
  datatype MenuQuery = MenuQuery(category: Option<string>, available: Option<string>, q: Option<string>,
                                 tag: Option<string>)

  /** The filter object `getMenu` builds: an absent part imposes nothing. */
  datatype MenuFilter = MenuFilter(category: Option<string>, isAvailable: Option<bool>, search: Option<string>,
                                   tag: Option<string>)

  function BuildFilter(query: MenuQuery): MenuFilter {
    MenuFilter(
      if Truthy(query.category) then query.category else None,
      if query.available == Some("true") then Some(true)
      else if query.available == Some("false") then Some(false)
      else None,
      if Truthy(query.q) then query.q else None,
      if Truthy(query.tag) then query.tag else None)
  }

  /** What `Menu.find(filter)` selects. */
  predicate MatchesFilter(f: MenuFilter, m: MenuItem) {
    (f.category.Some? ==> m.category == f.category.value)
    && (f.isAvailable.Some? ==> m.isAvailable == f.isAvailable.value)
    && (f.search.Some? ==> ContainsCI(m.name, f.search.value) || ContainsCI(m.description, f.search.value))
    && (f.tag.Some? ==> f.tag.value in m.dietaryTags)
  }

  /** The filter is the conjunction of one condition per provided parameter:
      exact category, exact `"true"`/`"false"` for availability, a
      case-insensitive search in name or description, and tag membership. */
  lemma FilterIsConjunctive(query: MenuQuery, m: MenuItem)
    ensures MatchesFilter(BuildFilter(query), m) <==>
              (Truthy(query.category) ==> m.category == query.category.value)
              && (query.available == Some("true") ==> m.isAvailable)
              && (query.available == Some("false") ==> !m.isAvailable)
              && (Truthy(query.q) ==> (exists i: nat :: OccursAt(Lower(m.name), Lower(query.q.value), i))
                                      || (exists i: nat :: OccursAt(Lower(m.description), Lower(query.q.value), i)))
              && (Truthy(query.tag) ==> query.tag.value in m.dietaryTags)
  {
    if Truthy(query.q) {
      ContainsOccurs(Lower(m.name), Lower(query.q.value));
      ContainsOccurs(Lower(m.description), Lower(query.q.value));
    }
  }

  /** With no parameters every item is listed. */
  lemma EmptyQueryMatchesAll(m: MenuItem)
    ensures MatchesFilter(BuildFilter(MenuQuery(None, None, None, None)), m)
  {
  }

  /** A value of `available` other than the exact strings `"true"` and
      `"false"` is ignored. */
  lemma OtherAvailabilityIgnored(query: MenuQuery)
    requires query.available != Some("true") && query.available != Some("false")
    ensures BuildFilter(query) == BuildFilter(query.(available := None))
  {
  }

  /** The filter as a query predicate. */
  function Matching(f: MenuFilter): MenuItem -> bool {
    (m: MenuItem) => MatchesFilter(f, m)
  }

  /** `getMenu`: the matching items, each as often as stored, newest first. */
  function MenuList(menu: seq<MenuItem>, query: MenuQuery): (r: seq<MenuItem>)
    ensures multiset(r) == multiset(Filter(menu, Matching(BuildFilter(query))))
    ensures Descending(r, MenuItemCreated)
    ensures forall i :: 0 <= i < |r| ==> r[i] in menu && MatchesFilter(BuildFilter(query), r[i])
    ensures forall i :: 0 <= i < |menu| && MatchesFilter(BuildFilter(query), menu[i]) ==> menu[i] in r
  {
    FindSortedDesc(menu, Matching(BuildFilter(query)), MenuItemCreated)
  }

  // -----------------------------------------------------------------------
  // Admin operations

  /** The body of `createMenuItem`, each path possibly missing. */
  datatype MenuBody = MenuBody(
    name: Option<string>,
    description: Option<string>,
    price: Option<int>,
    category: Option<string>,
    image: Option<string>,
    isAvailable: Option<bool>,
    dietaryTags: Option<seq<string>>,
    spiceLevel: Option<string>,
    ordersCount: Option<int>)

  /** A required, trimmed string path is present and not blank. */
  predicate FilledIn(s: Option<string>) {
    s.Some? && Trim(s.value) != ""
  }

  /** `Menu.create(body)`: the trim setters, the defaults, then the
      schema's validators; `None` when validation fails. */
  function NewMenuItem(body: MenuBody, newId: Id, now: Time): (r: Option<MenuItem>)
    ensures r.Some? <==> FilledIn(body.name) && FilledIn(body.description) && FilledIn(body.category)
                         && body.price.Some? && body.price.value >= 0
                         && body.spiceLevel.GetOr("none") in SpiceLevels
    ensures r.Some? ==> MenuItemValid(r.value) && r.value.id == newId && r.value.createdAt == now
    ensures r.Some? ==> r.value.name == Trim(body.name.value) && r.value.price == body.price.value
    ensures r.Some? ==> r.value.image == body.image.GetOr("") && r.value.isAvailable == body.isAvailable.GetOr(true)
                        && r.value.dietaryTags == body.dietaryTags.GetOr([])
                        && r.value.spiceLevel == body.spiceLevel.GetOr("none")
                        && r.value.ordersCount == body.ordersCount.GetOr(0)
  {
    if FilledIn(body.name) && FilledIn(body.description) && FilledIn(body.category)
       && body.price.Some? && body.price.value >= 0 && body.spiceLevel.GetOr("none") in SpiceLevels
    then
      var name := Trim(body.name.value);
      var description := Trim(body.description.value);
      var category := Trim(body.category.value);
      TrimTwice(body.name.value);
      TrimTwice(body.description.value);
      TrimTwice(body.category.value);
      Some(MenuItem(newId, name, description, body.price.value, category, body.image.GetOr(""),
                    body.isAvailable.GetOr(true), body.dietaryTags.GetOr([]), body.spiceLevel.GetOr("none"),
                    body.ordersCount.GetOr(0), now))
    else None
  }

  /** A name of one no-break space is blank once trimmed, so the item is
      refused whatever the other paths hold. */
  lemma NoBreakSpaceNameRefused(body: MenuBody, newId: Id, now: Time)
    requires body.name == Some("\U{00A0}")
    ensures NewMenuItem(body, newId, now) == None
  {
    NoBreakSpaceTrimsAway();
  }

  /** `createMenuItem`: 201 with the new item, or 400 with the validation error. */
  method CreateMenuItem(db: Db, body: MenuBody, newId: Id, now: Time) returns (reply: Reply<MenuItem>)
    modifies db`menu
    ensures match NewMenuItem(body, newId, now)
            case None => reply == Thrown(400) && db.menu == old(db.menu)
            case Some(m) => reply == Ok(201, m) && db.menu == old(db.menu) + [m]
    ensures AllMenuValid(old(db.menu)) ==> AllMenuValid(db.menu)
  {
    var made := NewMenuItem(body, newId, now);
    if made.None? {
      return Thrown(400);
    }
    db.menu := db.menu + [made.value];
    reply := Ok(201, made.value);
  }

  ghost predicate AllMenuValid(menu: seq<MenuItem>) {
    forall i :: 0 <= i < |menu| ==> MenuItemValid(menu[i])
  }

  /** An update body: the paths it sets. */
  datatype MenuPatch = MenuPatch(
    name: Option<string>,
    description: Option<string>,
    price: Option<int>,
    category: Option<string>,
    image: Option<string>,
    isAvailable: Option<bool>,
    dietaryTags: Option<seq<string>>,
    spiceLevel: Option<string>,
    ordersCount: Option<int>)

  /** The item with the patch's present paths written over it. */
  function MenuPatched(m: MenuItem, p: MenuPatch): MenuItem {
    m.(name := p.name.GetOr(m.name), description := p.description.GetOr(m.description),
       price := p.price.GetOr(m.price), category := p.category.GetOr(m.category), image := p.image.GetOr(m.image),
       isAvailable := p.isAvailable.GetOr(m.isAvailable), dietaryTags := p.dietaryTags.GetOr(m.dietaryTags),
       spiceLevel := p.spiceLevel.GetOr(m.spiceLevel), ordersCount := p.ordersCount.GetOr(m.ordersCount))
  }

  /** A patch never changes the id or the creation time, applying it twice
      is applying it once, and an empty patch changes nothing. */
  lemma MenuPatchFacts(m: MenuItem, p: MenuPatch)
    ensures MenuPatched(m, p).id == m.id && MenuPatched(m, p).createdAt == m.createdAt
    ensures MenuPatched(MenuPatched(m, p), p) == MenuPatched(m, p)
    ensures MenuPatched(m, MenuPatch(None, None, None, None, None, None, None, None, None)) == m
  {
  }

  /** Updates skip the validators: a patch can give a negative price or a
      spice level outside the enum; it can also overwrite the order count. */
  lemma PatchSkipsValidation(m: MenuItem)
    ensures !MenuItemValid(MenuPatched(m, MenuPatch(None, None, Some(-1), None, None, None, None, None, None)))
    ensures !MenuItemValid(MenuPatched(m, MenuPatch(None, None, None, None, None, None, None, Some("extra"), None)))
    ensures MenuPatched(m, MenuPatch(None, None, None, None, None, None, None, None, Some(99))).ordersCount == 99
  {
  }

  function ItemById(id: Id): MenuItem -> bool {
    (m: MenuItem) => m.id == id
  }

  /** `updateMenuItem`: 404 for an unknown id; otherwise the patch is stored
      without validation and the updated item returned. */
  method UpdateMenuItem(db: Db, id: Id, patch: MenuPatch) returns (reply: Reply<MenuItem>)
    modifies db`menu
    ensures match FindFirst(old(db.menu), ItemById(id))
            case None => reply == Fail(404, "Menu item not found") && db.menu == old(db.menu)
            case Some(i) =>
              reply == Ok(200, MenuPatched(old(db.menu)[i], patch))
              && db.menu == old(db.menu)[i := MenuPatched(old(db.menu)[i], patch)]
  {
    var found := FindFirst(db.menu, ItemById(id));
    if found.None? {
      return Fail(404, "Menu item not found");
    }
    var i := found.value;
    var updated := MenuPatched(db.menu[i], patch);
    db.menu := db.menu[i := updated];
    reply := Ok(200, updated);
  }

  /** `deleteMenuItem`: 404 for an unknown id; otherwise the item is removed. */
  method DeleteMenuItem(db: Db, id: Id) returns (reply: Reply<string>)
    modifies db`menu
    ensures match FindFirst(old(db.menu), ItemById(id))
            case None => reply == Fail(404, "Menu item not found") && db.menu == old(db.menu)
            case Some(i) => reply == Ok(200, "Menu item deleted") && db.menu == RemoveAt(old(db.menu), i)
    ensures AllMenuValid(old(db.menu)) ==> AllMenuValid(db.menu)
  {
    var found := FindFirst(db.menu, ItemById(id));
    if found.None? {
      return Fail(404, "Menu item not found");
    }
    db.menu := RemoveAt(db.menu, found.value);
    reply := Ok(200, "Menu item deleted");
  }

  /** The item after `toggleAvailability` with body value `v`. */
  function Toggled(m: MenuItem, v: JsValue): MenuItem {
    m.(isAvailable := JsTruthy(v))
  }

  /** `toggleAvailability`: 404 for an unknown id; otherwise `isAvailable`
      becomes `Boolean(v)`, so a missing value makes the item unavailable. */
  method ToggleAvailability(db: Db, id: Id, v: JsValue) returns (reply: Reply<MenuItem>)
    modifies db`menu
    ensures match FindFirst(old(db.menu), ItemById(id))
            case None => reply == Fail(404, "Menu item not found") && db.menu == old(db.menu)
            case Some(i) =>
              reply == Ok(200, Toggled(old(db.menu)[i], v)) && db.menu == old(db.menu)[i := Toggled(old(db.menu)[i], v)]
    ensures AllMenuValid(old(db.menu)) ==> AllMenuValid(db.menu)
  {
    var found := FindFirst(db.menu, ItemById(id));
    if found.None? {
      return Fail(404, "Menu item not found");
    }
    var i := found.value;
    var updated := Toggled(db.menu[i], v);
    db.menu := db.menu[i := updated];
    reply := Ok(200, updated);
  }

  /** After a toggle the item is listed under `available=true` exactly when
      the value sent was truthy, and under `available=false` otherwise; a
      missing value hides it from the available menu. */
  lemma ToggleDecidesListing(m: MenuItem, v: JsValue)
    ensures MatchesFilter(BuildFilter(MenuQuery(None, Some("true"), None, None)), Toggled(m, v)) <==> JsTruthy(v)
    ensures MatchesFilter(BuildFilter(MenuQuery(None, Some("false"), None, None)), Toggled(m, v)) <==> !JsTruthy(v)
    ensures !MatchesFilter(BuildFilter(MenuQuery(None, Some("true"), None, None)), Toggled(m, JsUndefined))
  {
  }
}

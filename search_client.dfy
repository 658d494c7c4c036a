/** The search box of the browser client: the discovery lists it keeps for
    five minutes (one minute after a failed load), the fallback chips it picks
    from them, and the suggestion box's state — the shown results, the
    highlighted entry and the last query — as the input and keyboard handlers
    change it. Requests are parameters: a response, or `None` when the request
    throws. */
module SearchClient {
  import opened Wrappers
  import opened Text
  import opened Seqs
  import opened Discovery

  // ---- discovery cache ----

  const SuccessTtl: int := 5 * 60 * 1000
  const FailureTtl: int := 60 * 1000

  /** The cached lists. */
  datatype Lists = Lists(categories: seq<string>, locations: seq<LocationCount>)

  /** A response body: each field is `None` when it is not an array. */
  datatype Body = Body(categories: Option<seq<string>>, locations: Option<seq<LocationCount>>)

  /** The cache answers without a request while it holds lists that have
      not expired. */
  predicate CacheHit(lists: Option<Lists>, expiresAt: int, now: int) {
    lists.Some? && expiresAt > now
  }

  /** The module-level cache of `loadDiscovery`. */
  class DiscoveryStore {
    var lists: Option<Lists>
    var expiresAt: int

    constructor ()
      ensures lists == None && expiresAt == 0
    {
      lists := None;
      expiresAt := 0;
    }

    /** `loadDiscovery()` at time `now`; `response` is what the request would
        give, consulted only on a miss. */
    method Load(now: int, response: Option<Body>) returns (r: Lists, requested: bool)
      modifies this
      ensures requested <==> !CacheHit(old(lists), old(expiresAt), now)
      ensures !requested ==> r == old(lists).value && lists == old(lists) && expiresAt == old(expiresAt)
      ensures requested && response.Some? ==>
        r == Lists(response.value.categories.GetOr([]), response.value.locations.GetOr([])) &&
        expiresAt == now + SuccessTtl
      ensures requested && response.None? ==> r == Lists([], []) && expiresAt == now + FailureTtl
      ensures requested ==> lists == Some(r)
      ensures requested ==> forall t :: now <= t < now + FailureTtl ==> CacheHit(lists, expiresAt, t)
    {
      if lists.Some? && expiresAt > now {
        return lists.value, false;
      }
      requested := true;
      if response.Some? {
        var body := response.value;
        r := Lists(if body.categories.Some? then body.categories.value else [],
                   if body.locations.Some? then body.locations.value else []);
        expiresAt := now + SuccessTtl;
      } else {
        r := Lists([], []);
        expiresAt := now + FailureTtl;
      }
      lists := Some(r);
    }
  }

  // ---- fallback chips ----

  /** The query as `pickRelated` compares it. */
  function Needle(q: Option<string>): string {
    Lower(Trim(q.GetOr("")))
  }

  /** An entry is related to a needle when its lower-cased text contains it. */
  predicate Related<T>(text: T -> string, needle: string, x: T) {
    Contains(Lower(text(x)), needle)
  }

  /** The related entries of `xs`, in list order. */
  function RelatedIn<T(==,!new)>(xs: seq<T>, text: T -> string, needle: string): (r: seq<T>)
    ensures forall x :: x in r <==> x in xs && Related(text, needle, x)
    ensures forall i :: 0 <= i < |r| ==> Related(text, needle, r[i])
    ensures r == [] <==> forall x :: x in xs ==> !Related(text, needle, x)
  {
    var r := Filter(xs, x => Related(text, needle, x));
    assert r != [] ==> r[0] in r;
    r
  }

  /** `pickRelated(list, q, text)`: up to three entries, the related ones
      when the query is not blank and some entry is related, else the head
      of the list. */
  function PickRelated<T(==,!new)>(list: Option<seq<T>>, q: Option<string>, text: T -> string): (r: seq<T>)
    ensures |r| <= 3
    ensures forall x :: x in r ==> x in list.GetOr([])
    ensures Needle(q) != "" && RelatedIn(list.GetOr([]), text, Needle(q)) != [] ==>
      (forall i :: 0 <= i < |r| ==> Related(text, Needle(q), r[i])) &&
      |r| == Min(3, |RelatedIn(list.GetOr([]), text, Needle(q))|) &&
      r == RelatedIn(list.GetOr([]), text, Needle(q))[..|r|]
    ensures Needle(q) == "" || (forall x :: x in list.GetOr([]) ==> !Related(text, Needle(q), x)) ==>
      |r| == Min(3, |list.GetOr([])|) && r == list.GetOr([])[..|r|]
  {
    var s := Needle(q);
    var arr := list.GetOr([]);
    var matches := if s != "" then RelatedIn(arr, text, s) else [];
    var picked := if matches == [] then arr else matches;
    Take(picked, 3)
  }

  function LocationText(x: LocationCount): string {
    x.location + ", " + x.country
  }

  /** The chips of the "no results" panel: related categories and places. */
  function FallbackChips(lists: Lists, lastQuery: string): (r: (seq<string>, seq<LocationCount>))
    ensures |r.0| <= 3 && |r.1| <= 3
    ensures forall c :: c in r.0 ==> c in lists.categories
    ensures forall l :: l in r.1 ==> l in lists.locations
    ensures r.0 == PickRelated(Some(lists.categories), Some(lastQuery), (c: string) => c)
    ensures r.1 == PickRelated(Some(lists.locations), Some(lastQuery), LocationText)
  {
    (PickRelated(Some(lists.categories), Some(lastQuery), (c: string) => c),
     PickRelated(Some(lists.locations), Some(lastQuery), LocationText))
  }

  // ---- keyboard navigation ----

  /** `setActive(idx)` with `count` items shown: no items gives -1; an index
      below the range wraps to the last item, one above it to the first. */
  function WrapIndex(idx: int, count: nat): (r: int)
    ensures count == 0 ==> r == -1
    ensures count > 0 ==> 0 <= r < count
    ensures count > 0 && 0 <= idx < count ==> r == idx
    ensures count > 0 && idx < 0 ==> r == count - 1
    ensures count > 0 && idx >= count ==> r == 0
  {
    if count == 0 then -1
    else if idx < 0 then count - 1
    else if idx >= count then 0
    else idx
  }

  /** The highlighted entry after ArrowDown. */
  function Down(active: int, count: nat): int {
    WrapIndex(if active == -1 then 0 else active + 1, count)
  }

  /** The highlighted entry after ArrowUp. */
  function Up(active: int, count: nat): int {
    WrapIndex(if active == -1 then count - 1 else active - 1, count)
  }

  /** ArrowDown and ArrowUp undo each other on a highlighted entry, and from
      no highlight they reach the first and the last entry. */
  lemma UpDownInverse(active: int, count: nat)
    requires 0 <= active < count
    ensures Up(Down(active, count), count) == active
    ensures Down(Up(active, count), count) == active
    ensures Down(-1, count) == 0 && Up(-1, count) == count - 1
  {
  }

  /** Pressing ArrowDown `k` times from the first entry, `k` short of the
      count, highlights entry `k`. */
  lemma {:induction false} DownWalks(count: nat, k: nat)
    requires k < count
    ensures Steps(count, k) == k
  {
    if k > 0 {
      DownWalks(count, k - 1);
    }
  }

  /** After `count` more presses the highlight is back where it was: the
      highlight cycles through every entry. */
  lemma {:induction false} DownCycles(count: nat, j: nat)
    requires count > 0
    ensures Steps(count, j + count) == Steps(count, j)
  {
    if j == 0 {
      DownWalks(count, count - 1);
    } else {
      DownCycles(count, j - 1);
    }
  }

  /** The highlight after `k` ArrowDown presses from the first entry. */
  function Steps(count: nat, k: nat): int {
    if k == 0 then 0 else Down(Steps(count, k - 1), count)
  }

  /** One suggestion: `_id`, absent or empty when unknown. */
  datatype Suggestion = Suggestion(id: Option<string>)

  /** A key the box reacts to. */
  datatype Key = Escape | ArrowDown | ArrowUp | Enter | OtherKey

  const MinQueryLength: nat := 2

  /** The per-form state of one search box. */
  class SuggestBox {
    var results: seq<Suggestion>
    var activeIndex: int
    var lastQuery: string
    var open: bool

    /** The highlight is -1 or a shown result, and a closed box shows none. */
    ghost predicate Valid()
      reads this
    {
      -1 <= activeIndex < |results| &&
      (!open ==> results == [] && activeIndex == -1)
    }

    constructor ()
      ensures Valid()
      ensures results == [] && activeIndex == -1 && lastQuery == "" && !open
    {
      results := [];
      activeIndex := -1;
      lastQuery := "";
      open := false;
    }

    /** `close()`. */
    method Close()
      modifies this
      ensures Valid()
      ensures results == [] && activeIndex == -1 && lastQuery == "" && !open
    {
      open := false;
      results := [];
      activeIndex := -1;
      lastQuery := "";
    }

    /** `mouseenter` on the `i`-th shown suggestion: `setActive(i)`, so a
        following Enter opens that suggestion. */
    method Hover(i: nat)
      requires Valid() && i < |results|
      modifies this`activeIndex
      ensures Valid()
      ensures activeIndex == i
    {
      activeIndex := WrapIndex(i, |results|);
    }

    /** `renderResults(results)`: nothing highlighted, the box shown. */
    method RenderResults(fetched: Option<seq<Suggestion>>)
      modifies this
      ensures Valid()
      ensures results == fetched.GetOr([]) && activeIndex == -1 && open
      ensures lastQuery == old(lastQuery)
    {
      results := if fetched.Some? then fetched.value else [];
      activeIndex := -1;
      open := true;
    }

    /** The `input` handler, with the debounced request completed:
        `response` is `None` when it throws, `Some(results)` otherwise. */
    method Input(value: string, response: Option<Option<seq<Suggestion>>>)
      modifies this
      ensures Valid()
      ensures |Trim(value)| < MinQueryLength || response.None? ==>
        results == [] && activeIndex == -1 && lastQuery == "" && !open
      ensures |Trim(value)| >= MinQueryLength && response.Some? ==>
        results == response.value.GetOr([]) && activeIndex == -1 && open && lastQuery == Trim(value)
    {
      var q := Trim(value);
      if |q| < MinQueryLength {
        Close();
        return;
      }
      lastQuery := q;
      if response.None? {
        Close();
      } else {
        RenderResults(response.value);
      }
    }

    /** `runSuggestNow()`: `threw` tells the caller the request failed, in
        which case the query is remembered and nothing else changes. */
    method RunSuggestNow(value: string, response: Option<Option<seq<Suggestion>>>) returns (threw: bool)
      requires Valid()
      modifies this
      ensures Valid()
      ensures threw <==> |Trim(value)| >= MinQueryLength && response.None?
      ensures |Trim(value)| < MinQueryLength ==>
        results == [] && activeIndex == -1 && lastQuery == "" && !open
      ensures threw ==>
        lastQuery == Trim(value) && results == old(results) &&
        activeIndex == old(activeIndex) && open == old(open)
      ensures |Trim(value)| >= MinQueryLength && response.Some? ==>
        results == response.value.GetOr([]) && activeIndex == -1 && open && lastQuery == Trim(value)
    {
      var q := Trim(value);
      if |q| < MinQueryLength {
        Close();
        return false;
      }
      lastQuery := q;
      if response.None? {
        return true;
      }
      RenderResults(response.value);
      threw := false;
    }

    /** The `keydown` handler. `value` and `response` serve the request
        ArrowDown makes on a closed box; `goTo` is the page Enter opens. */
    method KeyDown(key: Key, value: string, response: Option<Option<seq<Suggestion>>>)
      returns (goTo: Option<string>)
      requires Valid()
      modifies this
      ensures Valid()
      ensures goTo.Some? ==> key == Enter
      ensures key == Escape ==> results == [] && activeIndex == -1 && lastQuery == "" && !open
      ensures key == ArrowUp ==>
        results == old(results) && open == old(open) && lastQuery == old(lastQuery) &&
        activeIndex == (if old(open) && old(results) != [] then Up(old(activeIndex), |old(results)|)
                        else old(activeIndex))
      ensures key == ArrowDown && old(open) ==>
        results == old(results) && open && lastQuery == old(lastQuery) &&
        activeIndex == (if results != [] then Down(old(activeIndex), |results|) else old(activeIndex))
      ensures key == ArrowDown && !old(open) && |Trim(value)| >= MinQueryLength && response.Some? ==>
        results == response.value.GetOr([]) && open && lastQuery == Trim(value) &&
        activeIndex == (if results != [] then 0 else -1)
      ensures key == ArrowDown && !old(open) && |Trim(value)| < MinQueryLength ==>
        results == [] && activeIndex == -1 && lastQuery == "" && !open
      ensures key == ArrowDown && !old(open) && |Trim(value)| >= MinQueryLength && response.None? ==>
        lastQuery == Trim(value) && results == old(results) &&
        activeIndex == old(activeIndex) && open == old(open)
      ensures key == Enter || key == OtherKey ==>
        results == old(results) && open == old(open) && lastQuery == old(lastQuery) &&
        activeIndex == old(activeIndex)
      ensures key == Enter ==>
        (goTo.Some? <==> open && activeIndex != -1 && results[activeIndex].id.Some? &&
                         results[activeIndex].id.value != "")
      ensures goTo.Some? ==> goTo.value == "/listings/" + results[activeIndex].id.value
    {
      goTo := None;
      var isOpen := open;
      var itemsCount := |results|;
      match key {
        case Escape =>
          Close();
        case ArrowDown =>
          if !isOpen {
            var threw := RunSuggestNow(value, response);
            if threw {
              return;
            }
          }
          if |results| == 0 {
            return;
          }
          activeIndex := WrapIndex(if activeIndex == -1 then 0 else activeIndex + 1, |results|);
        case ArrowUp =>
          if !isOpen || itemsCount == 0 {
            return;
          }
          activeIndex := WrapIndex(if activeIndex == -1 then itemsCount - 1 else activeIndex - 1, itemsCount);
        case Enter =>
          if isOpen && activeIndex != -1 {
            var r := results[activeIndex];
            if r.id.Some? && r.id.value != "" {
              goTo := Some("/listings/" + r.id.value);
            }
          }
        case OtherKey =>
      }
    }
  }
}

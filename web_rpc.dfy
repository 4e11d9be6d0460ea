/** The RPC response interpreter of web_static/js/web_rpc.js.  An RPC
    reply is a JSON object; `ProcessRPCData` walks its keys in the order
    `for...in` visits them and fills page elements, the global data store
    `__js_data`, and held-back script, reload and navigation requests.
    The page is a `Page` object: the elements by id, the store, and the
    effects the script calls into the browser for (`alert`, `eval`,
    `location.reload()`, `window.location = ...`, the completion
    callback), recorded in order. */
module WebRpc {
  import opened Wrappers
  import opened GoText

  /** A decoded JSON value. */
  datatype Json =
    | JNull
    | JBool(b: bool)
    | JNumber(n: real)
    | JString(s: string)
    | JArray(items: seq<Json>)
    | JObject(members: seq<(string, Json)>)

  /** A decoded reply: its keys in `for...in` order. */
  type Envelope = seq<(string, Json)>

  /** What the page asks the browser to do. */
  datatype Effect =
    | Alert(message: Json)
    | Eval(code: Json, dom: map<string, Json>, store: map<string, Json>)
    | Reload
    | Navigate(target: Json)
    | OnComplete(data: Envelope)

  /** The keys that do not name a page element. */
  predicate Reserved(key: string)
  {
    key == "_js" || key == "_js_data_items" || key == "_js_data" || key == "_reload_page"
      || key == "_load_page" || key == "_success" || key == "_failure"
  }

  /** `x != undefined`: a held value counts only when it was set to
      something other than `null`. */
  predicate Present(held: Option<Json>)
  {
    held.Some? && held.value != JNull
  }

  /** The keys and values `for (var subkey in v)` visits: the members of an
      object, the positions of an array or a string, nothing otherwise. */
  function Members(v: Json): (m: seq<(string, Json)>)
    ensures v.JObject? ==> m == v.members
    ensures v.JNull? || v.JBool? || v.JNumber? ==> m == []
  {
    match v
    case JObject(members) => members
    case JArray(items) => seq(|items|, i requires 0 <= i < |items| => (NatToString(i), items[i]))
    case JString(s) => seq(|s|, i requires 0 <= i < |s| => (NatToString(i), JString([s[i]])))
    case _ => []
  }

  /** `store[subkey] = value` for each member in turn. */
  function Merge(store: map<string, Json>, members: seq<(string, Json)>): (r: map<string, Json>)
    decreases |members|
  {
    if |members| == 0 then store
    else Merge(store, members[..|members| - 1])[members[|members| - 1].0 := members[|members| - 1].1]
  }

  predicate HasKey(members: seq<(string, Json)>, k: string)
  {
    exists i :: 0 <= i < |members| && members[i].0 == k
  }

  /** Member `i` is the last one with key `k`. */
  predicate LastOccurrence(members: seq<(string, Json)>, i: int, k: string)
  {
    0 <= i < |members| && members[i].0 == k && forall j :: i < j < |members| ==> members[j].0 != k
  }

  /** A merge writes exactly the keys it is given, each with the value of
      its last occurrence, and leaves every other key of the store as it
      was. */
  lemma {:induction false} MergeRules(store: map<string, Json>, members: seq<(string, Json)>, k: string)
    ensures k in Merge(store, members) <==> k in store || HasKey(members, k)
    ensures !HasKey(members, k) && k in store ==> Merge(store, members)[k] == store[k]
    ensures forall i :: LastOccurrence(members, i, k) ==> Merge(store, members)[k] == members[i].1
    decreases |members|
  {
    if |members| > 0 {
      var front := members[..|members| - 1];
      MergeRules(store, front, k);
      assert forall i :: 0 <= i < |front| ==> front[i] == members[i];
      if HasKey(front, k) {
        var i :| 0 <= i < |front| && front[i].0 == k;
        assert members[i].0 == k;
      }
    }
  }

  /** `__js_data = value`: the store becomes the members of the object
      given. */
  function StoreOf(v: Json): (r: map<string, Json>)
    ensures forall k :: k in r <==> HasKey(Members(v), k) && v.JObject?
  {
    if v.JObject? then
      assert forall k :: k in Merge(map[], v.members) <==> HasKey(v.members, k) by {
        forall k ensures k in Merge(map[], v.members) <==> HasKey(v.members, k) {
          MergeRules(map[], v.members, k);
        }
      }
      Merge(map[], v.members)
    else map[]
  }

  /** The `_js`, `_reload_page` and `_load_page` values held until the
      loop ends. */
  datatype Held = Held(js: Option<Json>, reload: Option<Json>, load: Option<Json>)

  const NothingHeld := Held(None, None, None)

  /** The state of the walk: elements, store, held values, and the
      `_failure` message once one is reached. */
  datatype Walk = Walk(dom: map<string, Json>, store: map<string, Json>, held: Held, failure: Option<Json>)

  /** One key of the reply. */
  function Step(w: Walk, key: string, value: Json): (r: Walk)
  {
    if !Reserved(key) then w.(dom := if key in w.dom then w.dom[key := value] else w.dom)
    else if key == "_js" then w.(held := w.held.(js := Some(value)))
    else if key == "_js_data" then w.(store := StoreOf(value))
    else if key == "_js_data_items" then w.(store := Merge(w.store, Members(value)))
    else if key == "_reload_page" then w.(held := w.held.(reload := Some(value)))
    else if key == "_load_page" then w.(held := w.held.(load := Some(value)))
    else if key == "_success" then w
    else w.(failure := Some(value))
  }

  /** The walk over a reply, stopping at the first `_failure`. */
  function WalkFrom(w: Walk, data: Envelope): (r: Walk)
    decreases |data|
  {
    if |data| == 0 then w
    else
      var p := WalkFrom(w, data[..|data| - 1]);
      if p.failure.Some? then p else Step(p, data[|data| - 1].0, data[|data| - 1].1)
  }

  /** The walk ProcessRPCData starts on the page. */
  function Start(dom: map<string, Json>, store: map<string, Json>): Walk
  {
    Walk(dom, store, NothingHeld, None)
  }

  /** What happens after the loop: the alert of a failure, or the held
      script (seeing every element and store update) and at most one
      navigation, a reload taking precedence. */
  function Finish(w: Walk): (r: (seq<Effect>, bool))
  {
    if w.failure.Some? then ([Alert(w.failure.value)], false)
    else
      var js := if Present(w.held.js) then [Eval(w.held.js.value, w.dom, w.store)] else [];
      var nav := if Present(w.held.reload) then [Reload]
                 else if Present(w.held.load) then [Navigate(w.held.load.value)] else [];
      (js + nav, true)
  }

  predicate HasFailureKey(data: Envelope)
  {
    exists i :: 0 <= i < |data| && data[i].0 == "_failure"
  }

  /** Walking a reply in two pieces is walking it whole. */
  lemma {:induction false} WalkAppend(w: Walk, a: Envelope, b: Envelope)
    ensures WalkFrom(w, a + b) == WalkFrom(WalkFrom(w, a), b)
    decreases |b|
  {
    if |b| > 0 {
      var ab := a + b;
      assert ab[..|ab| - 1] == a + b[..|b| - 1];
      assert ab[|ab| - 1] == b[|b| - 1];
      WalkAppend(w, a, b[..|b| - 1]);
      var last := b[|b| - 1];
      var p := WalkFrom(w, a + b[..|b| - 1]);
      assert WalkFrom(w, ab) == if p.failure.Some? then p else Step(p, last.0, last.1);
      assert WalkFrom(WalkFrom(w, a), b) == if p.failure.Some? then p else Step(p, last.0, last.1);
    } else {
      assert a + b == a;
    }
  }

  /** Once a failure is reached nothing after it is walked. */
  lemma {:induction false} FailedWalkStays(w: Walk, data: Envelope)
    requires w.failure.Some?
    ensures WalkFrom(w, data) == w
    decreases |data|
  {
    if |data| > 0 {
      FailedWalkStays(w, data[..|data| - 1]);
    }
  }

  /** The walk ends in failure exactly when the reply has a `_failure`
      key, given it started without one. */
  lemma {:induction false} FailureIffKey(w: Walk, data: Envelope)
    requires w.failure.None?
    ensures WalkFrom(w, data).failure.Some? <==> HasFailureKey(data)
    decreases |data|
  {
    if |data| > 0 {
      var front := data[..|data| - 1];
      FailureIffKey(w, front);
      assert forall i :: 0 <= i < |front| ==> front[i] == data[i];
      if HasFailureKey(front) {
        var i :| 0 <= i < |front| && front[i].0 == "_failure";
        assert data[i].0 == "_failure";
      }
      if HasFailureKey(data) && !HasFailureKey(front) {
        assert data[|data| - 1].0 == "_failure";
      }
    }
  }

  /** `_failure` stops the walk where it stands: it reports the failure
      with everything before it applied and nothing after it, alerts, and
      runs no held script or navigation. */
  lemma FailureStops(dom: map<string, Json>, store: map<string, Json>, a: Envelope, v: Json, b: Envelope)
    requires !HasFailureKey(a)
    ensures var w := WalkFrom(Start(dom, store), a + [("_failure", v)] + b);
      && w == WalkFrom(Start(dom, store), a).(failure := Some(v))
      && Finish(w) == ([Alert(v)], false)
  {
    var s := Start(dom, store);
    FailureIffKey(s, a);
    WalkAppend(s, a + [("_failure", v)], b);
    WalkAppend(s, a, [("_failure", v)]);
    var p := WalkFrom(s, a);
    assert WalkFrom(p, [("_failure", v)]) == Step(WalkFrom(p, []), "_failure", v);
    FailedWalkStays(p.(failure := Some(v)), b);
  }

  /** The reply is processed successfully exactly when it has no
      `_failure` key. */
  lemma SuccessIffNoFailure(dom: map<string, Json>, store: map<string, Json>, data: Envelope)
    ensures Finish(WalkFrom(Start(dom, store), data)).1 <==> !HasFailureKey(data)
  {
    FailureIffKey(Start(dom, store), data);
  }

  /** `_success` changes nothing: dropping it gives the same walk. */
  lemma SuccessIsNoOp(w: Walk, a: Envelope, v: Json, b: Envelope)
    ensures WalkFrom(w, a + [("_success", v)] + b) == WalkFrom(w, a + b)
  {
    WalkAppend(w, a + [("_success", v)], b);
    WalkAppend(w, a, [("_success", v)]);
    WalkAppend(w, a, b);
    var p := WalkFrom(w, a);
    assert WalkFrom(p, [("_success", v)]) == (if p.failure.Some? then p else Step(WalkFrom(p, []), "_success", v));
  }

  /** The store the walk ends with depends only on the store it starts
      with and the reply, not on the elements or what is held. */
  lemma {:induction false} StoreIgnoresRest(w1: Walk, w2: Walk, data: Envelope)
    requires w1.store == w2.store && w1.failure == w2.failure
    ensures WalkFrom(w1, data).store == WalkFrom(w2, data).store
    ensures WalkFrom(w1, data).failure == WalkFrom(w2, data).failure
    decreases |data|
  {
    if |data| > 0 {
      StoreIgnoresRest(w1, w2, data[..|data| - 1]);
    }
  }

  /** A `_js_data` key resets the store: the store at the end does not
      depend on anything before it, so a later `_js_data` discards every
      earlier merge. */
  lemma JsDataResets(w1: Walk, a1: Envelope, w2: Walk, a2: Envelope, v: Json, b: Envelope)
    requires w1.failure.None? && w2.failure.None? && !HasFailureKey(a1) && !HasFailureKey(a2)
    ensures WalkFrom(w1, a1 + [("_js_data", v)] + b).store == WalkFrom(w2, a2 + [("_js_data", v)] + b).store
  {
    FailureIffKey(w1, a1);
    FailureIffKey(w2, a2);
    WalkAppend(w1, a1 + [("_js_data", v)], b);
    WalkAppend(w1, a1, [("_js_data", v)]);
    WalkAppend(w2, a2 + [("_js_data", v)], b);
    WalkAppend(w2, a2, [("_js_data", v)]);
    var p1, p2 := WalkFrom(w1, a1), WalkFrom(w2, a2);
    assert WalkFrom(p1, [("_js_data", v)]) == Step(WalkFrom(p1, []), "_js_data", v);
    assert WalkFrom(p2, [("_js_data", v)]) == Step(WalkFrom(p2, []), "_js_data", v);
    StoreIgnoresRest(Step(p1, "_js_data", v), Step(p2, "_js_data", v), b);
  }

  predicate DistinctKeys(data: Envelope)
  {
    forall i, j :: 0 <= i < j < |data| ==> data[i].0 != data[j].0
  }

  /** Without a failure the page keeps its elements; each element named by
      an ordinary key holds that key's value, and every other element is
      as it was. */
  lemma {:induction false} ElementRules(w: Walk, data: Envelope, k: string)
    requires DistinctKeys(data) && w.failure.None? && !HasFailureKey(data)
    ensures WalkFrom(w, data).dom.Keys == w.dom.Keys
    ensures forall i :: 0 <= i < |data| && data[i].0 == k && !Reserved(k) && k in w.dom ==>
      WalkFrom(w, data).dom[k] == data[i].1
    ensures (forall i :: 0 <= i < |data| ==> data[i].0 != k) && k in w.dom ==> WalkFrom(w, data).dom[k] == w.dom[k]
    decreases |data|
  {
    if |data| > 0 {
      var front := data[..|data| - 1];
      assert forall i :: 0 <= i < |front| ==> front[i] == data[i];
      assert forall i :: 0 <= i < |front| ==> front[i].0 != "_failure";
      ElementRules(w, front, k);
      FailureIffKey(w, front);
    }
  }

  /** After a successful walk the held script runs once, on the final
      elements and store, before any navigation; there is exactly one
      navigation when a reload or a page load was held, a reload wins over
      a page load, and a page load alone navigates to its target. */
  lemma FinishRules(w: Walk)
    requires w.failure.None?
    ensures Finish(w).1
    ensures |Finish(w).0| == (if Present(w.held.js) then 1 else 0)
                           + (if Present(w.held.reload) || Present(w.held.load) then 1 else 0)
    ensures Present(w.held.js) <==> |Finish(w).0| > 0 && Finish(w).0[0].Eval?
    ensures Present(w.held.js) ==> Finish(w).0[0] == Eval(w.held.js.value, w.dom, w.store)
    ensures Present(w.held.reload) ==> Finish(w).0[|Finish(w).0| - 1] == Reload
    ensures !Present(w.held.reload) && Present(w.held.load) ==>
      Finish(w).0[|Finish(w).0| - 1] == Navigate(w.held.load.value)
    ensures forall i :: 0 <= i < |Finish(w).0| && Finish(w).0[i].Navigate? ==>
      !Present(w.held.reload) && Present(w.held.load) && Finish(w).0[i] == Navigate(w.held.load.value)
    ensures !Present(w.held.js) && !Present(w.held.reload) && !Present(w.held.load) ==> Finish(w).0 == []
  {
  }

  /** The page a reply is applied to. */
  class Page {
    /** The elements, by id, and their content. */
    var dom: map<string, Json>
    /** The global `__js_data`. */
    var store: map<string, Json>
    var effects: seq<Effect>

    /** A page with its elements and the empty `__js_data` of line 2. */
    constructor (dom: map<string, Json>)
      ensures this.dom == dom && store == map[] && effects == []
    {
      this.dom := dom;
      store := map[];
      effects := [];
    }

    /** `__js_data[subkey] = value` for each member of an
        `_js_data_items` value. */
    method MergeItems(items: Json)
      modifies this
      ensures store == Merge(old(store), Members(items))
      ensures dom == old(dom) && effects == old(effects)
    {
      var members := Members(items);
      ghost var before := store;
      for j := 0 to |members|
        invariant store == Merge(before, members[..j])
        invariant dom == old(dom) && effects == old(effects)
      {
        assert members[..j + 1][..j] == members[..j];
        store := store[members[j].0 := members[j].1];
      }
      assert members[..|members|] == members;
    }

    /** `ProcessRPCData`: walks the reply, then runs the held script and
        navigation, and answers whether no failure was reached. */
    method ProcessRPCData(data: Envelope) returns (success: bool)
      modifies this
      ensures var w := WalkFrom(Start(old(dom), old(store)), data);
        dom == w.dom && store == w.store && effects == old(effects) + Finish(w).0 && success == Finish(w).1
    {
      var jsExecute: Option<Json> := None;
      var reloadPage: Option<Json> := None;
      var loadPage: Option<Json> := None;
      ghost var start := Start(dom, store);
      for i := 0 to |data|
        invariant WalkFrom(start, data[..i]) == Walk(dom, store, Held(jsExecute, reloadPage, loadPage), None)
        invariant effects == old(effects)
      {
        assert data[..i + 1][..i] == data[..i];
        var key, value := data[i].0, data[i].1;
        if !Reserved(key) {
          if key in dom {
            dom := dom[key := value];
          }
        } else if key == "_js" {
          jsExecute := Some(value);
        } else if key == "_js_data" {
          store := StoreOf(value);
        } else if key == "_js_data_items" {
          MergeItems(value);
        } else if key == "_reload_page" {
          reloadPage := Some(value);
        } else if key == "_load_page" {
          loadPage := Some(value);
        } else if key == "_success" {
        } else {
          effects := effects + [Alert(value)];
          FailedWalkStays(WalkFrom(start, data[..i + 1]), data[i + 1..]);
          WalkAppend(start, data[..i + 1], data[i + 1..]);
          assert data[..i + 1] + data[i + 1..] == data;
          return false;
        }
      }
      assert data[..|data|] == data;
      if Present(jsExecute) {
        effects := effects + [Eval(jsExecute.value, dom, store)];
      }
      if Present(reloadPage) {
        effects := effects + [Reload];
      } else if Present(loadPage) {
        effects := effects + [Navigate(loadPage.value)];
      }
      return true;
    }

    /** The success handler of `RPC`: processes the reply and, when that
        succeeded and a callback was given, calls it with the reply parsed
        again. */
    method RPCSuccess(data: Envelope, hasCallback: bool) returns (success: bool)
      modifies this
      ensures var w := WalkFrom(Start(old(dom), old(store)), data);
        && dom == w.dom && store == w.store && success == Finish(w).1
        && effects == old(effects) + Finish(w).0 + (if success && hasCallback then [OnComplete(data)] else [])
    {
      success := ProcessRPCData(data);
      if success && hasCallback {
        effects := effects + [OnComplete(data)];
      }
    }
  }
}

/** The pure decisions of the property provider: which kind of selector a
    query asks for, the data filter built from the query's mapping, and the
    single response the value listener produces for each foreign event. */
module Provider {
  import opened Results

  /** The fields of a property access query that this core reads. The
      selector is `None` or a string; the data filters are `None` or a
      mapping, given as its (key, value) items in iteration order. */
  datatype Query<F> = Query(
    device: string,
    prop: string,
    selector: Option<string>,
    dataFilters: Option<seq<(string, F)>>)

  /** Python truthiness of the query's selector: `None` and "" are false. */
  predicate HasSelector<F>(q: Query<F>) {
    q.selector.Some? && q.selector.value != ""
  }

  /** Python truthiness of the query's data filters: `None` and an empty
      mapping are false. */
  predicate HasFilters<F>(q: Query<F>) {
    q.dataFilters.Some? && q.dataFilters.value != []
  }

  /** Python's `str` of the selector; `str(None)` is "None". */
  function SelectorText(o: Option<string>): string {
    match o
    case None => "None"
    case Some(s) => s
  }

  /** The foreign selector handed to the middleware: the shared "no
      selector" constant, a selector built from a text, or one built from
      a text and a data filter. */
  datatype Selector<F> =
    | NoSelector
    | Plain(id: string)
    | Filtered(id: string, filter: map<string, F>)

  /** The keys of a mapping's items. */
  function KeysOf<F>(items: seq<(string, F)>): set<string> {
    set i | 0 <= i < |items| :: items[i].0
  }

  /** The items of a Python mapping never repeat a key. */
  predicate DistinctKeys<F>(items: seq<(string, F)>) {
    forall i, j :: 0 <= i < j < |items| ==> items[i].0 != items[j].0
  }

  /** The foreign data filter: an empty map-value into which every item of
      the mapping is put in turn, so a later put of a key overwrites an
      earlier one. It holds the mapping's keys and nothing else, and every
      entry it holds is one of the mapping's items. */
  function DataFilter<F>(items: seq<(string, F)>): (m: map<string, F>)
    ensures m.Keys == KeysOf(items)
    ensures forall k :: k in m ==> exists i :: 0 <= i < |items| && items[i] == (k, m[k])
    decreases |items|
  {
    if items == [] then map[]
    else
      var n := |items| - 1;
      var m := DataFilter(items[..n]);
      assert forall i :: 0 <= i < n ==> items[..n][i] == items[i];
      m[items[n].0 := items[n].1]
  }

  /** For a mapping (whose keys are distinct) the data filter holds exactly
      the mapping's entries: each key maps to its own value. This follows
      from every entry of the filter being one of the items. */
  lemma DataFilterEntries<F>(items: seq<(string, F)>)
    requires DistinctKeys(items)
    ensures forall i :: 0 <= i < |items| ==>
      items[i].0 in DataFilter(items) && DataFilter(items)[items[i].0] == items[i].1
  {
  }

  /** The selector for a query. With neither a selector nor data filters it
      is the "no selector" constant; with data filters it is a filtered
      selector whether or not a selector is given; otherwise a plain one.
      Any built selector's text is `str` of the query's selector. */
  function CreateSelector<F>(q: Query<F>): (r: Selector<F>)
    ensures r.NoSelector? <==> !HasSelector(q) && !HasFilters(q)
    ensures r.Filtered? <==> HasFilters(q)
    ensures !r.NoSelector? ==> r.id == SelectorText(q.selector)
    ensures r.Filtered? ==> r.filter.Keys == KeysOf(q.dataFilters.value)
  {
    if !HasSelector(q) && !HasFilters(q) then NoSelector
    else if HasFilters(q) then Filtered(SelectorText(q.selector), DataFilter(q.dataFilters.value))
    else Plain(SelectorText(q.selector))
  }

  /** A given selector is passed through unchanged, and a given mapping of
      data filters is passed through entry for entry. */
  lemma CreateSelectorKeepsQuery<F>(q: Query<F>)
    requires q.dataFilters.Some? ==> DistinctKeys(q.dataFilters.value)
    ensures HasSelector(q) ==> CreateSelector(q).id == q.selector.value
    ensures HasFilters(q) ==> forall i :: 0 <= i < |q.dataFilters.value| ==>
      var item := q.dataFilters.value[i];
      item.0 in CreateSelector(q).filter && CreateSelector(q).filter[item.0] == item.1
  {
  }

  /** Data filters without a selector give a filtered selector whose text is
      "None" when the selector is `None`, and "" when it is empty. */
  lemma FiltersWithoutSelector<F>(q: Query<F>)
    requires HasFilters(q) && !HasSelector(q)
    ensures q.selector.None? ==> CreateSelector(q) == Filtered("None", DataFilter(q.dataFilters.value))
    ensures q.selector.Some? ==> CreateSelector(q) == Filtered("", DataFilter(q.dataFilters.value))
  {
  }

  // ---------------------------------------------------------------------
  // The value listener.
  // ---------------------------------------------------------------------

  /** A foreign parameter exception: its message and the value header it
      carries. */
  datatype ParameterException<H> = ParameterException(message: string, header: H)

  /** The local access error raised from a foreign exception: its message
      and, as its cause, the foreign exception itself. */
  datatype PropertyAccessError<H> = PropertyAccessError(message: string, cause: ParameterException<H>)

  /** A property retrieval response: the query, a notification type, and an
      optional value and an optional exception. */
  datatype Response<F, V, N, H> = Response(
    query: Query<F>,
    notification: N,
    value: Option<V>,
    exception: Option<PropertyAccessError<H>>)

  /** The two calls the foreign middleware makes on a listener. */
  datatype Event<A, H> =
    | ValueReceived(parameterName: string, acquired: A)
    | ExceptionOccured(parameterName: string, description: string, exception: ParameterException<H>)

  /** The converters the listener relies on, whose code is not part of this
      model: the notification type read from a value header, and the
      (value, notification type) pair read from an acquired value. Either
      may raise, which `Err` stands for. */
  datatype Converters<!A, V, N, !H> = Converters(
    headerNotification: H -> Result<N>,
    acquiredPair: A -> Result<(V, N)>)

  /** A response carries a value or an exception, never both, never neither. */
  predicate ValueXorException<F, V, N, H>(r: Response<F, V, N, H>) {
    r.value.Some? != r.exception.Some?
  }

  /** The exception callback. It first reads the notification type from the
      exception's header; if that raises, the error propagates out of the
      callback and no response is made. Otherwise the response has no
      value, its exception has the foreign message and the foreign
      exception as its cause, and its notification type is the header's. */
  function OnException<F, A, V, N, H>(q: Query<F>, conv: Converters<A, V, N, H>, e: ParameterException<H>)
    : (r: Result<Response<F, V, N, H>>)
    ensures r.Ok? <==> conv.headerNotification(e.header).Ok?
    ensures r.Err? ==> r.error == conv.headerNotification(e.header).error
    ensures r.Ok? ==> ValueXorException(r.value) && r.value.exception.Some?
    ensures r.Ok? ==> r.value.exception.value.message == e.message && r.value.exception.value.cause == e
    ensures r.Ok? ==> r.value.notification == conv.headerNotification(e.header).value
    ensures r.Ok? ==> r.value.query == q
  {
    var notification :- conv.headerNotification(e.header);
    Ok(Response(q, notification, None, Some(PropertyAccessError(e.message, e))))
  }

  /** The value callback. If converting the acquired value raises, the error
      propagates out of the callback and no response is made. Otherwise the
      response carries the converted value and its notification type, with
      no exception. */
  function OnValueReceived<F, A, V, N, H>(q: Query<F>, conv: Converters<A, V, N, H>, acquired: A)
    : (r: Result<Response<F, V, N, H>>)
    ensures r.Ok? <==> conv.acquiredPair(acquired).Ok?
    ensures r.Err? ==> r.error == conv.acquiredPair(acquired).error
    ensures r.Ok? ==> ValueXorException(r.value) && r.value.value.Some?
    ensures r.Ok? ==> (r.value.value.value, r.value.notification) == conv.acquiredPair(acquired).value
    ensures r.Ok? ==> r.value.query == q
  {
    var pair :- conv.acquiredPair(acquired);
    Ok(Response(q, pair.1, Some(pair.0), None))
  }

  /** Whether the converter an event needs returns normally. */
  predicate Converts<A, V, N, H>(conv: Converters<A, V, N, H>, ev: Event<A, H>) {
    match ev
    case ValueReceived(_, acquired) => conv.acquiredPair(acquired).Ok?
    case ExceptionOccured(_, _, e) => conv.headerNotification(e.header).Ok?
  }

  /** The listener's handling of one foreign event: the single response it
      hands to the callback, or the error that escapes it when the needed
      converter raises. A response is an error exactly when the event is an
      exception, and its error then leads back to that exception. */
  function Listen<F, A, V, N, H>(q: Query<F>, conv: Converters<A, V, N, H>, ev: Event<A, H>)
    : (r: Result<Response<F, V, N, H>>)
    ensures r.Ok? <==> Converts(conv, ev)
    ensures r.Ok? ==> ValueXorException(r.value) && r.value.query == q
    ensures r.Ok? ==> (r.value.exception.Some? <==> ev.ExceptionOccured?)
    ensures r.Ok? && ev.ExceptionOccured? ==> r.value.exception.value.cause == ev.exception
    ensures r.Ok? && ev.ValueReceived? ==> r.value.value.value == conv.acquiredPair(ev.acquired).value.0
  {
    match ev
    case ValueReceived(_, acquired) => OnValueReceived(q, conv, acquired)
    case ExceptionOccured(_, _, e) => OnException(q, conv, e)
  }

  /** The responses handed to the callback for a sequence of events from
      one subscription, in arrival order. Every response comes from one of
      the events; an event whose conversion raises gives none, so then
      fewer responses than events arrive; when every conversion returns
      normally there is exactly one response per event, at its position. */
  function ResponsesFor<F, A, V, N, H>(q: Query<F>, conv: Converters<A, V, N, H>, evs: seq<Event<A, H>>)
    : (rs: seq<Response<F, V, N, H>>)
    ensures |rs| <= |evs|
    ensures (forall i :: 0 <= i < |evs| ==> Converts(conv, evs[i])) ==>
      |rs| == |evs| && forall i :: 0 <= i < |evs| ==> Listen(q, conv, evs[i]) == Ok(rs[i])
    decreases |evs|
  {
    if evs == [] then []
    else
      var n := |evs| - 1;
      var init := ResponsesFor(q, conv, evs[..n]);
      assert forall i :: 0 <= i < n ==> evs[..n][i] == evs[i];
      match Listen(q, conv, evs[n])
      case Ok(r) => init + [r]
      case Err(_) => init
  }

  /** Every response comes from one of the events, so nothing is invented. */
  lemma {:induction false} ResponsesComeFromEvents<F, A, V, N, H>(q: Query<F>, conv: Converters<A, V, N, H>, evs: seq<Event<A, H>>)
    ensures forall j :: 0 <= j < |ResponsesFor(q, conv, evs)| ==>
      exists i :: 0 <= i < |evs| && Listen(q, conv, evs[i]) == Ok(ResponsesFor(q, conv, evs)[j])
    decreases |evs|
  {
    if evs != [] {
      var n := |evs| - 1;
      var init := evs[..n];
      ResponsesComeFromEvents(q, conv, init);
      var rs0 := ResponsesFor(q, conv, init);
      var rs := ResponsesFor(q, conv, evs);
      assert rs[..|rs0|] == rs0;
      assert |rs| > |rs0| ==> Listen(q, conv, evs[n]) == Ok(rs[|rs0|]);
      forall j | 0 <= j < |rs|
        ensures exists i :: 0 <= i < |evs| && Listen(q, conv, evs[i]) == Ok(rs[j])
      {
        if j < |rs0| {
          assert rs[j] == rs0[j];
          var i :| 0 <= i < |init| && Listen(q, conv, init[i]) == Ok(rs0[j]);
          assert init[i] == evs[i];
          assert 0 <= i < |evs| && Listen(q, conv, evs[i]) == Ok(rs[j]);
        } else {
          assert 0 <= n < |evs| && Listen(q, conv, evs[n]) == Ok(rs[j]);
        }
      }
    } else {
      assert ResponsesFor(q, conv, evs) == [];
    }
  }

  /** The responses are the responses of the converting events, in arrival
      order: `idx` gives, for each response, the position of its event;
      positions strictly increase, so no response is duplicated or
      reordered, and every event that converts has its response there. */
  lemma {:induction false} ResponsesInOrder<F, A, V, N, H>(q: Query<F>, conv: Converters<A, V, N, H>, evs: seq<Event<A, H>>)
    returns (idx: seq<int>)
    ensures |idx| == |ResponsesFor(q, conv, evs)|
    ensures forall a, b :: 0 <= a < b < |idx| ==> idx[a] < idx[b]
    ensures forall j :: 0 <= j < |idx| ==>
      0 <= idx[j] < |evs| && Listen(q, conv, evs[idx[j]]) == Ok(ResponsesFor(q, conv, evs)[j])
    ensures forall i :: 0 <= i < |evs| && Converts(conv, evs[i]) ==> i in idx
    decreases |evs|
  {
    if evs == [] {
      idx := [];
    } else {
      var n := |evs| - 1;
      var init := evs[..n];
      var idx0 := ResponsesInOrder(q, conv, init);
      var rs0 := ResponsesFor(q, conv, init);
      assert forall i :: 0 <= i < n ==> init[i] == evs[i];
      if Converts(conv, evs[n]) {
        idx := idx0 + [n];
        assert ResponsesFor(q, conv, evs) == rs0 + [Listen(q, conv, evs[n]).value];
      } else {
        idx := idx0;
        assert ResponsesFor(q, conv, evs) == rs0;
      }
    }
  }

  /** An event whose conversion raises is lost: fewer responses than events
      arrive. */
  lemma {:induction false} UnconvertibleEventIsLost<F, A, V, N, H>(q: Query<F>, conv: Converters<A, V, N, H>, evs: seq<Event<A, H>>, k: int)
    requires 0 <= k < |evs| && !Converts(conv, evs[k])
    ensures |ResponsesFor(q, conv, evs)| < |evs|
    decreases |evs|
  {
    var n := |evs| - 1;
    if k < n {
      assert evs[..n][k] == evs[k];
      UnconvertibleEventIsLost(q, conv, evs[..n], k);
    }
  }

  /** A get whose single event cannot be converted hands nothing to the
      callback, so its result is never set. */
  lemma UnconvertibleEventGivesNoResponse<F, A, V, N, H>(q: Query<F>, conv: Converters<A, V, N, H>, ev: Event<A, H>)
    requires !Converts(conv, ev)
    ensures ResponsesFor(q, conv, [ev]) == []
  {
  }

  /** When every conversion returns normally, responses line up with events:
      the errors among them sit exactly at the positions of the exception
      events, and each carries its event's foreign exception as cause. */
  lemma ResponsesFollowEvents<F, A, V, N, H>(q: Query<F>, conv: Converters<A, V, N, H>, evs: seq<Event<A, H>>, i: int)
    requires forall k :: 0 <= k < |evs| ==> Converts(conv, evs[k])
    requires 0 <= i < |evs|
    ensures ResponsesFor(q, conv, evs)[i].exception.Some? <==> evs[i].ExceptionOccured?
    ensures evs[i].ExceptionOccured? ==> ResponsesFor(q, conv, evs)[i].exception.value.cause == evs[i].exception
  {
  }
}

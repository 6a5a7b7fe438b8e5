// The props object that `makeComponent`'s handler passes to a component
// (main.js:79-98): the request's body, route parameters and query string,
// spread in that order, then the session and, for `use` routes only, the
// request method.

module Props {

  /** The keys `makeComponent` writes after the spread. */
  const SessionKey: string := "session"
  const MethodKey: string := "method"

  /** Whether a key is one of those written after the spread, for this route. */
  predicate Reserved(k: string, routeMethod: string) {
    k == SessionKey || (routeMethod == "use" && k == MethodKey)
  }

  /**
   * The value a request field contributes under `k`: the query string wins
   * over the route parameters, which win over the body.
   */
  function Requested<V>(body: map<string, V>, params: map<string, V>, query: map<string, V>, k: string): V
    requires k in body || k in params || k in query
  {
    if k in query then query[k] else if k in params then params[k] else body[k]
  }

  /**
   * `{...req.body, ...req.params, ...req.query}`, then `props.session` and,
   * when the route method is `use`, `props.method`. Every key of the three
   * request fields survives; the reserved keys carry the values set last.
   */
  function MergeProps<V>(body: map<string, V>, params: map<string, V>, query: map<string, V>,
                         session: V, routeMethod: string, requestMethod: V): (props: map<string, V>)
    ensures props.Keys == body.Keys + params.Keys + query.Keys + {SessionKey} +
                          (if routeMethod == "use" then {MethodKey} else {})
    ensures props[SessionKey] == session
    ensures routeMethod == "use" ==> props[MethodKey] == requestMethod
    ensures forall k :: k in props && !Reserved(k, routeMethod) ==>
              props[k] == Requested(body, params, query, k)
  {
    var spread := body + params + query;
    var withSession := spread[SessionKey := session];
    if routeMethod == "use" then withSession[MethodKey := requestMethod] else withSession
  }

  /**
   * Only a `use` route gets `method`: on any other route the key is there only
   * when the request itself carries it, and then with the request's value.
   */
  lemma MethodOnlyForUse<V>(body: map<string, V>, params: map<string, V>, query: map<string, V>,
                            session: V, routeMethod: string, requestMethod: V)
    requires routeMethod != "use"
    ensures var props := MergeProps(body, params, query, session, routeMethod, requestMethod);
      && (MethodKey in props <==> MethodKey in body || MethodKey in params || MethodKey in query)
      && (MethodKey in props ==> props[MethodKey] == Requested(body, params, query, MethodKey))
  {
    var props := MergeProps(body, params, query, session, routeMethod, requestMethod);
    assert MethodKey != SessionKey;
    if MethodKey in props {
      assert !Reserved(MethodKey, routeMethod);
    }
  }

  /**
   * The props depend on the request fields only through the keys they carry
   * and the values `Requested` picks, apart from `session`.
   */
  lemma SameRequested<V>(b1: map<string, V>, p1: map<string, V>, q1: map<string, V>,
                         b2: map<string, V>, p2: map<string, V>, q2: map<string, V>,
                         session: V, routeMethod: string, requestMethod: V)
    requires b1.Keys + p1.Keys + q1.Keys + {SessionKey} == b2.Keys + p2.Keys + q2.Keys + {SessionKey}
    requires forall k :: k != SessionKey && (k in b1 || k in p1 || k in q1) ==>
      Requested(b1, p1, q1, k) == Requested(b2, p2, q2, k)
    ensures MergeProps(b1, p1, q1, session, routeMethod, requestMethod) ==
            MergeProps(b2, p2, q2, session, routeMethod, requestMethod)
  {
    var m1 := MergeProps(b1, p1, q1, session, routeMethod, requestMethod);
    var m2 := MergeProps(b2, p2, q2, session, routeMethod, requestMethod);
    assert m1.Keys == m2.Keys;
    forall k | k in m1 ensures m1[k] == m2[k] {
      if !Reserved(k, routeMethod) {
        assert k != SessionKey;
      }
    }
  }

  /**
   * A request field cannot override the session: the props are the same as
   * if no request field carried a `session` key at all.
   */
  lemma SessionNotOverridable<V>(body: map<string, V>, params: map<string, V>, query: map<string, V>,
                                 session: V, routeMethod: string, requestMethod: V)
    ensures MergeProps(body, params, query, session, routeMethod, requestMethod) ==
            MergeProps(body - {SessionKey}, params - {SessionKey}, query - {SessionKey},
                       session, routeMethod, requestMethod)
  {
    SameRequested(body, params, query, body - {SessionKey}, params - {SessionKey}, query - {SessionKey},
                  session, routeMethod, requestMethod);
  }

  /**
   * The `use` test's two requests: a query `hello=world` on a GET and a JSON
   * body `{hello: "world"}` on a POST both give the component `hello`.
   */
  lemma HelloFromQueryOrBody<V>(session: V, requestMethod: V, world: V)
    ensures var props := MergeProps(map[], map[], map["hello" := world], session, "use", requestMethod);
      "hello" in props && props["hello"] == world
    ensures var props := MergeProps(map["hello" := world], map[], map[], session, "use", requestMethod);
      "hello" in props && props["hello"] == world
  {
    assert !Reserved("hello", "use");
  }
}

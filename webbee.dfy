/** The web bee: turns incoming GET and POST requests into "get" and "post"
    events, and performs outbound POST actions whose response bodies are
    turned into "post" events the same way. */
module WebBee {
  import opened Bees

  /** The stand-in for the client's address that every web event carries. */
  const IpPlaceholder := Placeholder("ip", "string", Str("tbd"))

  /** `t` holds, in some order, one "string" placeholder for each key in
      `keys` (all of them keys of `m`), named after the key and carrying the
      key's value, and nothing else. */
  ghost predicate ListsKeys(t: seq<Placeholder>, m: map<string, Value>, keys: set<string>)
  {
    && keys <= m.Keys
    && |t| == |keys|
    && Names(t) == keys
    && (forall i :: 0 <= i < |t| ==>
          t[i].name in keys && t[i] == Placeholder(t[i].name, "string", m[t[i].name]))
    && (forall i, j :: 0 <= i < j < |t| ==> t[i].name != t[j].name)
  }

  /** The names of the placeholders in `t`. */
  ghost function Names(t: seq<Placeholder>): set<string>
  {
    if t == [] then {} else Names(t[..|t| - 1]) + {t[|t| - 1].name}
  }

  /** A name in `Names(t)` is the name of some placeholder of `t`. */
  lemma {:induction false} NamedAt(t: seq<Placeholder>, k: string)
    requires k in Names(t)
    ensures exists i :: 0 <= i < |t| && t[i].name == k
  {
    if t[|t| - 1].name != k {
      NamedAt(t[..|t| - 1], k);
      var i :| 0 <= i < |t| - 1 && t[..|t| - 1][i].name == k;
      assert t[i].name == k;
    }
  }

  /** `t` is what ranging over the Go map `m` appends, in whichever order
      the range visits the keys. */
  ghost predicate ListsMap(t: seq<Placeholder>, m: map<string, Value>)
  {
    ListsKeys(t, m, m.Keys)
  }

  /** Appends one "string" placeholder per key of `m` to `prefix`, visiting
      the keys in an unspecified order as `for k, v := range m` does. */
  method AppendKeyPlaceholders(prefix: seq<Placeholder>, m: map<string, Value>)
    returns (opts: seq<Placeholder>)
    ensures |opts| == |prefix| + |m|
    ensures opts[..|prefix|] == prefix
    ensures ListsMap(opts[|prefix|..], m)
  {
    opts := prefix;
    var todo := m.Keys;
    ghost var done, added := {}, [];
    while todo != {}
      invariant todo + done == m.Keys && todo !! done
      invariant opts == prefix + added
      invariant ListsKeys(added, m, done)
      decreases todo
    {
      var k :| k in todo;
      var ph := Placeholder(k, "string", m[k]);
      ListsKeysExtend(added, m, done, k);
      AppendAssociates(prefix, added, ph);
      opts, added := opts + [ph], added + [ph];
      todo, done := todo - {k}, done + {k};
    }
    assert done == m.Keys;
    assert opts[|prefix|..] == added;
  }

  lemma AppendAssociates(prefix: seq<Placeholder>, added: seq<Placeholder>, ph: Placeholder)
    ensures (prefix + added) + [ph] == prefix + (added + [ph])
  {
  }

  /** Appending the placeholder of a key not yet listed lists one key more. */
  lemma ListsKeysExtend(t: seq<Placeholder>, m: map<string, Value>, keys: set<string>, k: string)
    requires ListsKeys(t, m, keys) && k in m && k !in keys
    ensures ListsKeys(t + [Placeholder(k, "string", m[k])], m, keys + {k})
  {
    var t' := t + [Placeholder(k, "string", m[k])];
    assert t'[..|t|] == t;
    assert Names(t') == keys + {k};
  }

  /** The query parameters of a GET request as placeholder values. */
  function ParamValues(params: map<string, string>): (values: map<string, Value>)
  {
    map k | k in params :: Str(params[k])
  }

  /** `ev` is the event a GET request with query parameters `params` fires
      on bee `bee`: the "ip" placeholder first, then one "string"
      placeholder per parameter. */
  ghost predicate IsGetEvent(ev: Event, bee: string, params: map<string, string>)
  {
    && ev.bee == bee
    && ev.name == "get"
    && |ev.options| == 1 + |params|
    && ev.options[0] == IpPlaceholder
    && ListsMap(ev.options[1..], ParamValues(params))
  }

  /** Builds the event of a GET request. */
  method BuildGetEvent(bee: string, params: map<string, string>) returns (ev: Event)
    ensures IsGetEvent(ev, bee, params)
  {
    var values := ParamValues(params);
    assert values.Keys == params.Keys;
    var opts := AppendKeyPlaceholders([IpPlaceholder], values);
    ev := Event(bee, "get", opts);
  }

  /** The second decode pass: unmarshalling the same body into a
      `map[string]interface{}`. It succeeds on an object, and on `null`, which
      leaves the map nil and therefore empty; anything else is a type error. */
  function DecodeObject(decoded: Option<Value>): (r: Option<map<string, Value>>)
    ensures r.Some? <==> decoded.Some? && (decoded.value.Dict? || decoded.value.Nil?)
    ensures r.Some? && decoded.value.Dict? ==> r.value == decoded.value.entries
    ensures r.Some? && decoded.value.Nil? ==> r.value == map[]
  {
    match decoded
    case Some(Dict(m)) => Some(m)
    case Some(Nil) => Some(map[])
    case _ => None
  }

  /** `ev` is the event a JSON body fires: the whole decoded `payload` as
      "json", then "ip", then one "string" placeholder per top-level key. */
  ghost predicate IsPostEvent(ev: Event, bee: string, payload: Value, m: map<string, Value>)
  {
    && ev.bee == bee
    && ev.name == "post"
    && |ev.options| == 2 + |m|
    && ev.options[0] == Placeholder("json", "map", payload)
    && ev.options[1] == IpPlaceholder
    && ListsMap(ev.options[2..], m)
  }

  /** `built` is what a body that decodes to `decoded` yields: nothing when
      either decode pass fails, else one complete "post" event. */
  ghost predicate IsJsonEventFor(built: Option<Event>, bee: string, decoded: Option<Value>)
  {
    match DecodeObject(decoded)
    case None => built == None
    case Some(m) => built.Some? && IsPostEvent(built.value, bee, decoded.value, m)
  }

  /** The channel went from `before` to `after` by what a body that decodes
      to `decoded` fires. */
  ghost predicate EmitsJsonEvent(bee: string, decoded: Option<Value>, before: seq<Event>, after: seq<Event>)
  {
    match DecodeObject(decoded)
    case None => after == before
    case Some(m) =>
      && |after| == |before| + 1
      && after[..|before|] == before
      && IsPostEvent(after[|before|], bee, decoded.value, m)
  }

  /** Decodes `body` twice, through the JSON decoder `unmarshal`, and builds
      the event; `None` when a pass fails, so no partial event exists. */
  method BuildJsonEvent(bee: string, body: Bytes, unmarshal: Bytes -> Option<Value>)
    returns (built: Option<Event>)
    ensures IsJsonEventFor(built, bee, unmarshal(body))
  {
    var payload := unmarshal(body);
    if payload.None? {
      return None;
    }
    var prefix := [Placeholder("json", "map", payload.value), IpPlaceholder];
    var j := DecodeObject(unmarshal(body));
    if j.None? {
      return None;
    }
    var opts := AppendKeyPlaceholders(prefix, j.value);
    built := Some(Event(bee, "post", opts));
  }

  /** An outbound HTTP response; `stream` identifies its unread body. */
  datatype Response = Response(statusCode: int, stream: nat)

  class WebBee {
    const name: string
    var options: seq<Placeholder>
    var addr: string
    var path: string
    var eventChan: EventChan?

    constructor (name: string)
      ensures this.name == name && options == [] && addr == "" && path == ""
      ensures eventChan == null
    {
      this.name := name;
      options, addr, path := [], "", "";
      eventChan := null;
    }

    /** Stores the options, then binds "address" and "path" into the
        fields, each keeping its current value when the option is absent. */
    method ReloadOptions(options: seq<Placeholder>)
      modifies this
      ensures this.options == options
      ensures addr == BindString(options, "address", old(addr))
      ensures path == BindString(options, "path", old(path))
      ensures eventChan == old(eventChan)
    {
      this.options := options;
      addr := BindString(options, "address", addr);
      path := BindString(options, "path", path);
    }

    /** Stores the channel events are sent on. */
    method Run(cin: EventChan)
      modifies this
      ensures eventChan == cin
      ensures options == old(options) && addr == old(addr) && path == old(path)
    {
      eventChan := cin;
    }

    /** Fires the event of a JSON body, or nothing when it does not decode. */
    method TriggerJsonEvent(body: Bytes, unmarshal: Bytes -> Option<Value>)
      requires eventChan != null
      modifies eventChan
      ensures EmitsJsonEvent(name, unmarshal(body), old(eventChan.events), eventChan.events)
    {
      var built := BuildJsonEvent(name, body, unmarshal);
      if built.Some? {
        eventChan.Send(built.value);
      }
    }

    /** Handles a GET request: fires exactly one "get" event. */
    method GetRequest(params: map<string, string>)
      requires eventChan != null
      modifies eventChan
      ensures |eventChan.events| == |old(eventChan.events)| + 1
      ensures eventChan.events[..|old(eventChan.events)|] == old(eventChan.events)
      ensures IsGetEvent(eventChan.events[|old(eventChan.events)|], name, params)
    {
      var ev := BuildGetEvent(name, params);
      eventChan.Send(ev);
    }

    /** Handles a POST request whose body was read as `body`: nothing when
        the read failed, otherwise what the body's JSON fires. */
    method PostRequest(body: Result<Bytes, string>, unmarshal: Bytes -> Option<Value>)
      requires eventChan != null
      modifies eventChan
      ensures body.Failure? ==> eventChan.events == old(eventChan.events)
      ensures body.Success? ==>
        EmitsJsonEvent(name, unmarshal(body.value), old(eventChan.events), eventChan.events)
    {
      if body.Failure? {
        return;
      }
      TriggerJsonEvent(body.value, unmarshal);
    }

    /** Performs an action. "post" sends the "json" option to the "url"
        option (both default to ""), through `httpPost`, reads the response
        body with `readAll` and fires what that body's JSON fires; a failure
        of either call fires nothing. Any other action name panics. */
    method Action(action: Bees.Action,
                  httpPost: (string, string, string) -> Result<Response, string>,
                  readAll: Response -> Result<Bytes, string>,
                  unmarshal: Bytes -> Option<Value>)
      returns (outcome: Outcome)
      requires action.name == "post" ==> eventChan != null
      modifies eventChan
      ensures action.name != "post" ==>
        && outcome == Panicked(UnknownAction(UnknownActionMessage(name, action.name)))
        && (eventChan != null ==> eventChan.events == old(eventChan.events))
      ensures action.name == "post" ==> outcome == Returned([])
      ensures action.name == "post" ==>
        var url := BindString(action.options, "url", "");
        var j := BindString(action.options, "json", "");
        match httpPost(url, "application/json", j)
        case Failure(_) => eventChan.events == old(eventChan.events)
        case Success(resp) =>
          match readAll(resp)
          case Failure(_) => eventChan.events == old(eventChan.events)
          case Success(b) => EmitsJsonEvent(name, unmarshal(b), old(eventChan.events), eventChan.events)
    {
      var outs := [];
      if action.name == "post" {
        var url := BindString(action.options, "url", "");
        var j := BindString(action.options, "json", "");
        var resp := httpPost(url, "application/json", j);
        if resp.Failure? {
          return Returned(outs);
        }
        var b := readAll(resp.value);
        if b.Failure? {
          return Returned(outs);
        }
        TriggerJsonEvent(b.value, unmarshal);
      } else {
        return Panicked(UnknownAction(UnknownActionMessage(name, action.name)));
      }
      outcome := Returned(outs);
    }
  }

  /** Elements of a sequence whose names are pairwise distinct occur once. */
  lemma {:induction false} DistinctNamesOccurOnce(t: seq<Placeholder>, p: Placeholder)
    requires forall i, j :: 0 <= i < j < |t| ==> t[i].name != t[j].name
    ensures multiset(t)[p] == if p in t then 1 else 0
  {
    if t != [] {
      var last := t[|t| - 1];
      var init := t[..|t| - 1];
      assert t == init + [last];
      DistinctNamesOccurOnce(init, p);
      if p == last {
        forall i | 0 <= i < |init| ensures init[i] != p {
          assert t[i].name != t[|t| - 1].name;
        }
      }
    }
  }

  /** The placeholders ranging over a map appends are determined up to
      order: any two orders of visiting the keys give permutations of each
      other. */
  lemma ListsMapUpToOrder(t1: seq<Placeholder>, t2: seq<Placeholder>, m: map<string, Value>)
    requires ListsMap(t1, m) && ListsMap(t2, m)
    ensures multiset(t1) == multiset(t2)
  {
    forall p ensures multiset(t1)[p] == multiset(t2)[p] {
      DistinctNamesOccurOnce(t1, p);
      DistinctNamesOccurOnce(t2, p);
      if p in t1 {
        var i :| 0 <= i < |t1| && t1[i] == p;
        NamedAt(t2, p.name);
        var j :| 0 <= j < |t2| && t2[j].name == p.name;
      }
      if p in t2 {
        var j :| 0 <= j < |t2| && t2[j] == p;
        NamedAt(t1, p.name);
        var i :| 0 <= i < |t1| && t1[i].name == p.name;
      }
    }
  }

  /** Two events fired by the same GET request agree on the "ip"
      placeholder and, up to order, on the rest. */
  lemma GetEventUpToOrder(ev1: Event, ev2: Event, bee: string, params: map<string, string>)
    requires IsGetEvent(ev1, bee, params) && IsGetEvent(ev2, bee, params)
    ensures ev1.bee == ev2.bee && ev1.name == ev2.name
    ensures |ev1.options| == |ev2.options| && ev1.options[0] == ev2.options[0]
    ensures multiset(ev1.options) == multiset(ev2.options)
  {
    ListsMapUpToOrder(ev1.options[1..], ev2.options[1..], ParamValues(params));
    assert ev1.options == [ev1.options[0]] + ev1.options[1..];
    assert ev2.options == [ev2.options[0]] + ev2.options[1..];
  }

  /** Every query parameter `k=v` appears as a placeholder `{k, "string", v}`
      after the "ip" placeholder. */
  lemma GetEventCarriesParam(ev: Event, bee: string, params: map<string, string>, k: string)
    requires IsGetEvent(ev, bee, params) && k in params
    ensures exists i :: 1 <= i < |ev.options| && ev.options[i] == Placeholder(k, "string", Str(params[k]))
  {
    var t := ev.options[1..];
    assert k in ParamValues(params);
    NamedAt(t, k);
    var i :| 0 <= i < |t| && t[i].name == k;
    assert ev.options[i + 1] == t[i];
  }

  /** Names are not deduplicated: a query parameter called "ip" yields a
      second placeholder called "ip" beside the fixed one. */
  lemma GetEventRepeatsIp(ev: Event, bee: string, params: map<string, string>)
    requires IsGetEvent(ev, bee, params) && "ip" in params
    ensures ev.options[0].name == "ip"
    ensures exists i :: 1 <= i < |ev.options| && ev.options[i].name == "ip"
  {
    GetEventCarriesParam(ev, bee, params, "ip");
  }

  /** Two events fired by the same JSON body agree on "json" and "ip" and,
      up to order, on the rest. */
  lemma PostEventUpToOrder(ev1: Event, ev2: Event, bee: string, payload: Value, m: map<string, Value>)
    requires IsPostEvent(ev1, bee, payload, m) && IsPostEvent(ev2, bee, payload, m)
    ensures ev1.bee == ev2.bee && ev1.name == ev2.name
    ensures |ev1.options| == |ev2.options| && ev1.options[..2] == ev2.options[..2]
    ensures multiset(ev1.options) == multiset(ev2.options)
  {
    ListsMapUpToOrder(ev1.options[2..], ev2.options[2..], m);
    assert ev1.options == ev1.options[..2] + ev1.options[2..];
    assert ev2.options == ev2.options[..2] + ev2.options[2..];
  }

  /** Every top-level key `k` of a JSON object body appears as a
      placeholder `{k, "string", value}` after "json" and "ip". */
  lemma PostEventCarriesKey(ev: Event, bee: string, payload: Value, m: map<string, Value>, k: string)
    requires IsPostEvent(ev, bee, payload, m) && k in m
    ensures exists i :: 2 <= i < |ev.options| && ev.options[i] == Placeholder(k, "string", m[k])
  {
    var t := ev.options[2..];
    NamedAt(t, k);
    var i :| 0 <= i < |t| && t[i].name == k;
    assert ev.options[i + 2] == t[i];
  }

  /** A body that decodes to something other than an object or `null` (an
      array, a number, a string, a boolean) fires nothing, although the first
      decode pass succeeded. */
  lemma NonObjectFiresNothing(bee: string, payload: Value, before: seq<Event>, after: seq<Event>)
    requires !payload.Dict? && !payload.Nil?
    requires EmitsJsonEvent(bee, Some(payload), before, after)
    ensures after == before
  {
  }

  /** A body that does not decode fires nothing. */
  lemma UndecodableFiresNothing(bee: string, before: seq<Event>, after: seq<Event>)
    requires EmitsJsonEvent(bee, None, before, after)
    ensures after == before
  {
  }

  /** A `null` body passes both decode passes and fires a "post" event
      holding only "json" (nil) and "ip". */
  lemma NullBodyFiresBareEvent(bee: string, before: seq<Event>, after: seq<Event>)
    requires EmitsJsonEvent(bee, Some(Nil), before, after)
    ensures |after| == |before| + 1
    ensures after[|before|] == Event(bee, "post", [Placeholder("json", "map", Nil), IpPlaceholder])
  {
  }
}

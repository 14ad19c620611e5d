/** The records every bee shares: placeholders, events and actions, the
    dynamically typed values they carry, the option binder, and the event
    channel a bee pushes its events onto. */
module Bees {

  datatype Option<+T> = None | Some(value: T)

  datatype Result<+T, +E> = Success(value: T) | Failure(error: E)

  newtype byte = x: int | 0 <= x < 256

  /** A request or response body as read off the wire. */
  type Bytes = seq<byte>

  /** A Go `interface{}` value as it occurs in placeholders: a string, an int,
      or what `encoding/json` decodes into an `interface{}` (nil, bool,
      float64, string, []interface{}, map[string]interface{}). */
  datatype Value =
    | Nil
    | Bool(b: bool)
    | Int(i: int)
    | Float(x: real)
    | Str(s: string)
    | List(items: seq<Value>)
    | Dict(entries: map<string, Value>)

  /** A named value; `kind` is advisory and never checked against `value`. */
  datatype Placeholder = Placeholder(name: string, kind: string, value: Value)

  datatype Event = Event(bee: string, name: string, options: seq<Placeholder>)

  datatype Action = Action(bee: string, name: string, options: seq<Placeholder>)

  /** Why an action handler panicked instead of returning. */
  datatype Panic =
    | UnknownAction(message: string)
    | TypeAssertion(option: Placeholder)  // `opt.Value.(string)` on a non-string

  /** How a call of a bee's `Action` ends: a normal return of its result
      placeholders, or a panic. */
  datatype Outcome = Returned(outs: seq<Placeholder>) | Panicked(reason: Panic)

  /** The message both bees panic with on an action name they do not know. */
  function UnknownActionMessage(bee: string, action: string): (message: string)
  {
    "Unknown action triggered in " + bee + ": " + action
  }

  /** The value of the first placeholder called `name`, if there is one. */
  function Lookup(opts: seq<Placeholder>, name: string): (r: Option<Value>)
    ensures r.None? <==> forall i :: 0 <= i < |opts| ==> opts[i].name != name
    ensures r.Some? ==>
      exists i :: 0 <= i < |opts| && opts[i].name == name && opts[i].value == r.value &&
        forall j :: 0 <= j < i ==> opts[j].name != name
  {
    if opts == [] then None
    else if opts[0].name == name then Some(opts[0].value)
    else
      var r := Lookup(opts[1..], name);
      assert r.Some? ==> (exists i :: 1 <= i < |opts| && opts[i].name == name && opts[i].value == r.value &&
                                      forall j :: 0 <= j < i ==> opts[j].name != name)
      by {
        if r.Some? {
          var i :| 0 <= i < |opts[1..]| && opts[1..][i].name == name && opts[1..][i].value == r.value &&
            forall j :: 0 <= j < i ==> opts[1..][j].name != name;
          assert forall j :: 0 <= j < i + 1 ==> opts[j].name != name by {
            forall j | 0 <= j < i + 1 ensures opts[j].name != name {
              if j > 0 { assert opts[j] == opts[1..][j - 1]; }
            }
          }
        }
      }
      r
  }

  /** Binds the option `name` into a string variable whose current value is
      `dflt`: the first option of that name decides; an absent option leaves
      the default in place, and so does a value that is not a string (the
      type mismatch is reported to the caller, who ignores it). */
  function BindString(opts: seq<Placeholder>, name: string, dflt: string): (r: string)
    ensures (forall i :: 0 <= i < |opts| ==> opts[i].name != name) ==> r == dflt
    ensures forall i :: 0 <= i < |opts| && opts[i].name == name &&
                        (forall j :: 0 <= j < i ==> opts[j].name != name) ==>
                        r == (if opts[i].value.Str? then opts[i].value.s else dflt)
  {
    var found := Lookup(opts, name);
    assert forall i :: 0 <= i < |opts| && opts[i].name == name &&
                       (forall j :: 0 <= j < i ==> opts[j].name != name) ==>
                       found == Some(opts[i].value)
    by {
      forall i | 0 <= i < |opts| && opts[i].name == name &&
                 (forall j :: 0 <= j < i ==> opts[j].name != name)
        ensures found == Some(opts[i].value)
      {
        var k :| 0 <= k < |opts| && opts[k].name == name && opts[k].value == found.value &&
          forall j :: 0 <= j < k ==> opts[j].name != name;
        assert k == i;
      }
    }
    match found
    case Some(Str(s)) => s
    case _ => dflt
  }

  /** The event channel a bee pushes onto; a send appends to `events`. */
  class EventChan {
    var events: seq<Event>

    constructor ()
      ensures events == []
    {
      events := [];
    }

    method Send(ev: Event)
      modifies this
      ensures events == old(events) + [ev]
    {
      events := events + [ev];
    }
  }
}

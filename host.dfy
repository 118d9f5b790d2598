/**
 * The outside world the app talks to: the persistent key-value store (AsyncStorage),
 * the network request to the link-resolution service, the OS "open URL" action and the
 * router. Every call is appended to one log, in the order the app issues it, so that the
 * order of effects can be stated. How each storage call turns out is decided by an
 * oracle, the script `faults`, one entry per storage call.
 */
module Host {
  import opened Wrappers

  /** How one storage call turns out. `Loses` is a write that reports success but is
      silently dropped; a read is not affected by it. */
  datatype Fault = Succeeds | Loses | Throws(message: string)

  /** One call made to the outside world. */
  datatype Call =
    | Read(key: string)
    | Write(key: string, value: string)
    | Delete(key: string)
    | Request(odesliUrl: string)
    | OpenLink(url: string)
    | ReplaceRoute(route: string)

  /** The fault for the i-th upcoming storage call; past the end of the script every call succeeds. */
  function FaultAt(faults: seq<Fault>, i: nat): Fault {
    if i < |faults| then faults[i] else Succeeds
  }

  /** The script left after n storage calls have consumed its head. */
  function Drop(faults: seq<Fault>, n: nat): (rest: seq<Fault>)
    ensures forall i: nat :: FaultAt(rest, i) == FaultAt(faults, n + i)
  {
    if n <= |faults| then faults[n..] else []
  }

  /** What `getItem` yields for a key: its value, or null when the key is absent. */
  function Lookup(storage: map<string, string>, key: string): (r: Option<string>)
    ensures r.Some? <==> key in storage
    ensures r.Some? ==> r.value == storage[key]
  {
    if key in storage then Some(storage[key]) else None
  }

  /** The storage after a storage call has met its fault: applied when it succeeds, unchanged otherwise. */
  function Applied(storage: map<string, string>, fault: Fault, call: Call): map<string, string> {
    if !fault.Succeeds? then storage
    else match call
      case Write(key, value) => storage[key := value]
      case Delete(key) => storage - {key}
      case _ => storage
  }

  /** The state of the outside world as a value: storage, the fault script and the call log. */
  datatype World = World(storage: map<string, string>, faults: seq<Fault>, log: seq<Call>)

  /** The world after one storage call: applied under the next fault, that fault consumed, the call logged. */
  function AfterStorageCall(w: World, call: Call): World {
    World(Applied(w.storage, FaultAt(w.faults, 0), call), Drop(w.faults, 1), w.log + [call])
  }

  /** The world after a call that does not touch storage: only logged. */
  function AfterCall(w: World, call: Call): World {
    w.(log := w.log + [call])
  }

  class Device {
    var storage: map<string, string>
    var faults: seq<Fault>
    var log: seq<Call>

    constructor (storage: map<string, string>, faults: seq<Fault>)
      ensures this.storage == storage && this.faults == faults && log == []
    {
      this.storage := storage;
      this.faults := faults;
      log := [];
    }

    /** The device's state as a value. */
    function State(): World
      reads this
    {
      World(storage, faults, log)
    }

    /** The fault that the next storage call meets. */
    function Upcoming(): Fault
      reads this
    {
      FaultAt(faults, 0)
    }

    /** `AsyncStorage.getItem(key)`. */
    method GetItem(key: string) returns (r: Outcome<Option<string>>)
      modifies this`faults, this`log
      ensures faults == Drop(old(faults), 1)
      ensures log == old(log) + [Read(key)]
      ensures old(Upcoming()).Throws? ==> r == Thrown(old(Upcoming()).message)
      ensures !old(Upcoming()).Throws? ==> r == Ok(Lookup(storage, key))
    {
      var fault := Upcoming();
      faults := Drop(faults, 1);
      log := log + [Read(key)];
      if fault.Throws? {
        r := Thrown(fault.message);
      } else {
        r := Ok(Lookup(storage, key));
      }
    }

    /** `AsyncStorage.setItem(key, value)`: applied, silently dropped, or thrown. */
    method SetItem(key: string, value: string) returns (r: Outcome<()>)
      modifies this
      ensures faults == Drop(old(faults), 1)
      ensures log == old(log) + [Write(key, value)]
      ensures storage == if old(Upcoming()).Succeeds? then old(storage)[key := value] else old(storage)
      ensures old(Upcoming()).Throws? ==> r == Thrown(old(Upcoming()).message)
      ensures !old(Upcoming()).Throws? ==> r == Ok(())
    {
      var fault := Upcoming();
      faults := Drop(faults, 1);
      log := log + [Write(key, value)];
      if fault.Succeeds? {
        storage := storage[key := value];
      }
      if fault.Throws? {
        r := Thrown(fault.message);
      } else {
        r := Ok(());
      }
    }

    /** `AsyncStorage.removeItem(key)`: applied, silently dropped, or thrown. */
    method RemoveItem(key: string) returns (r: Outcome<()>)
      modifies this
      ensures faults == Drop(old(faults), 1)
      ensures log == old(log) + [Delete(key)]
      ensures storage == if old(Upcoming()).Succeeds? then old(storage) - {key} else old(storage)
      ensures old(Upcoming()).Throws? ==> r == Thrown(old(Upcoming()).message)
      ensures !old(Upcoming()).Throws? ==> r == Ok(())
    {
      var fault := Upcoming();
      faults := Drop(faults, 1);
      log := log + [Delete(key)];
      if fault.Succeeds? {
        storage := storage - {key};
      }
      if fault.Throws? {
        r := Thrown(fault.message);
      } else {
        r := Ok(());
      }
    }

    /** The network request to the resolution service; its response is an input of the caller. */
    method Fetch(odesliUrl: string)
      modifies this`log
      ensures log == old(log) + [Request(odesliUrl)]
    {
      log := log + [Request(odesliUrl)];
    }

    /** `Linking.openURL(url)`; `failure` is the message it rejects with, if it does. */
    method OpenUrl(url: string, failure: Option<string>) returns (r: Outcome<()>)
      modifies this`log
      ensures log == old(log) + [OpenLink(url)]
      ensures r == if failure.Some? then Thrown(failure.value) else Ok(())
    {
      log := log + [OpenLink(url)];
      r := if failure.Some? then Thrown(failure.value) else Ok(());
    }

    /** `router.replace(route)`. */
    method Replace(route: string)
      modifies this`log
      ensures log == old(log) + [ReplaceRoute(route)]
    {
      log := log + [ReplaceRoute(route)];
    }
  }
}

/** DefaultTemplateConfigVariablesProvider: a named, caller-mutable set of
    template variables. The provider's map is an object of its own (a Java
    Map<String, String>), because the provider hands that very object out and
    may share it with whoever passed it in. */
module VariablesProvider {

  /** The key-value laws of Map.put: the key maps to the new value, every
      other key keeps its value, and no key other than `name` is added. */
  function Updated(m: map<string, string>, name: string, value: string): (r: map<string, string>)
    ensures name in r && r[name] == value
    ensures r.Keys == m.Keys + {name}
    ensures forall k :: k in m && k != name ==> r[k] == m[k]
  {
    m[name := value]
  }

  /** The entries left after the calls put(puts[0]), put(puts[1]), ... in that order. */
  function Replay(m: map<string, string>, puts: seq<(string, string)>): map<string, string>
    decreases |puts|
  {
    if puts == [] then m else Replay(Updated(m, puts[0].0, puts[0].1), puts[1..])
  }

  /** The keys after a series of puts are the original keys and the names put. */
  lemma {:induction false} ReplayKeys(m: map<string, string>, puts: seq<(string, string)>)
    ensures forall k :: k in Replay(m, puts) <==> k in m || exists i :: 0 <= i < |puts| && puts[i].0 == k
    decreases |puts|
  {
    if puts != [] {
      var m' := Updated(m, puts[0].0, puts[0].1);
      ReplayKeys(m', puts[1..]);
      forall k ensures k in Replay(m, puts) <==> k in m || exists i :: 0 <= i < |puts| && puts[i].0 == k {
        if k in m' && k !in m {
          assert puts[0].0 == k;
        }
        if exists i :: 1 <= i < |puts| && puts[i].0 == k {
          var i :| 1 <= i < |puts| && puts[i].0 == k;
          assert puts[1..][i - 1].0 == k;
        }
        if exists i :: 0 <= i < |puts[1..]| && puts[1..][i].0 == k {
          var i :| 0 <= i < |puts[1..]| && puts[1..][i].0 == k;
          assert puts[i + 1].0 == k;
        }
      }
    }
  }

  /** A key that no put names keeps its original presence and value. */
  lemma {:induction false} ReplayUntouchedKey(m: map<string, string>, puts: seq<(string, string)>, k: string)
    requires forall i :: 0 <= i < |puts| ==> puts[i].0 != k
    ensures k in Replay(m, puts) <==> k in m
    ensures k in m ==> Replay(m, puts)[k] == m[k]
    decreases |puts|
  {
    if puts != [] {
      assert puts[0].0 != k;
      forall i | 0 <= i < |puts[1..]| ensures puts[1..][i].0 != k {
        assert puts[1..][i] == puts[i + 1];
      }
      ReplayUntouchedKey(Updated(m, puts[0].0, puts[0].1), puts[1..], k);
    }
  }

  /** The value of a key after a series of puts is the one its last put gave it. */
  lemma {:induction false} ReplayLastPutWins(m: map<string, string>, puts: seq<(string, string)>, i: nat)
    requires i < |puts|
    requires forall j :: i < j < |puts| ==> puts[j].0 != puts[i].0
    ensures puts[i].0 in Replay(m, puts) && Replay(m, puts)[puts[i].0] == puts[i].1
    decreases |puts|
  {
    var m' := Updated(m, puts[0].0, puts[0].1);
    forall j | (if i == 0 then 0 else i - 1) < j < |puts[1..]| ensures puts[1..][j].0 != puts[i].0 {
      assert puts[1..][j] == puts[j + 1];
    }
    if i == 0 {
      ReplayUntouchedKey(m', puts[1..], puts[0].0);
    } else {
      assert puts[1..][i - 1] == puts[i];
      ReplayLastPutWins(m', puts[1..], i - 1);
    }
  }

  /** The Map<String, String> a provider keeps its variables in: mutable, with
      keys compared by String.equals (a HashMap, as the one-argument
      constructor creates). */
  class StringMap {
    var entries: map<string, string>

    /** new HashMap<>() */
    constructor ()
      ensures entries == map[]
    {
      entries := map[];
    }

    /** Map.put(name, value), its returned previous value ignored. */
    method Put(name: string, value: string)
      modifies this
      ensures entries == Updated(old(entries), name, value)
    {
      entries := entries[name := value];
    }
  }

  class DefaultTemplateConfigVariablesProvider {
    /** Final fields: no operation can change the namespace or replace the map. */
    const namespace: string
    const data: StringMap

    /** A provider with an empty map of its own. */
    constructor (namespace: string)
      ensures this.namespace == namespace
      ensures fresh(data) && data.entries == map[]
    {
      this.namespace := namespace;
      this.data := new StringMap();
    }

    /** A provider that uses the caller's map object itself, not a copy of it. */
    constructor WithData(namespace: string, data: StringMap)
      ensures this.namespace == namespace
      ensures this.data == data && data.entries == old(data.entries)
    {
      this.namespace := namespace;
      this.data := data;
    }

    method Put(name: string, value: string)
      modifies data
      ensures GetVariables().entries == Updated(old(GetVariables().entries), name, value)
    {
      data.Put(name, value);
    }

    // Nothing changes the namespace because it is a const; its value is the
    // one the constructors promise.
    function GetNamespace(): (r: string)
      ensures r == namespace
    {
      namespace
    }

    /** The live backing map: the same object on every call, so it reflects
        every put; which object that is, the constructors promise. */
    function GetVariables(): (r: StringMap)
      ensures r == data
    {
      data
    }
  }

  /** Puts through a provider are seen through a map obtained from it earlier,
      and through the caller's own reference to a map it supplied. */
  method LiveVariablesScenario(shared: StringMap)
    modifies shared
  {
    var p := new DefaultTemplateConfigVariablesProvider.WithData("db", shared);
    var vars := p.GetVariables();
    p.Put("host", "localhost");
    p.Put("port", "5432");
    p.Put("host", "db.internal");
    assert vars.entries["host"] == "db.internal" && vars.entries["port"] == "5432";
    assert shared.entries == vars.entries;
    assert p.GetNamespace() == "db";

    var q := new DefaultTemplateConfigVariablesProvider("env");
    assert q.GetVariables().entries == map[];
    assert q.GetVariables() != shared;
  }
}

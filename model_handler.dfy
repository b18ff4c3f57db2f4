/**
 * The offline RAG app's model handler: which of the configured local
 * models are available. The file system is an `exists` predicate on paths.
 */
module ModelHandling {
  import opened Wrappers

  /** A model the handler knows: its display name and the configuration key of its path. */
  datatype Entry = Entry(name: string, pathKey: string)

  /** `model_paths`, in insertion order. */
  const Catalogue: seq<Entry> :=
    [Entry("Llama 3", "llama_model_path"), Entry("Mistral", "mistral_model_path"), Entry("Gemma", "gemma_model_path")]

  /** `config.get(key)` */
  function PathOf(config: map<string, string>, key: string): Option<string> {
    if key in config then Some(config[key]) else None
  }

  /** `path and os.path.exists(path)` */
  predicate Usable(config: map<string, string>, exists_: string -> bool, e: Entry) {
    var path := PathOf(config, e.pathKey);
    path.Some? && path.value != "" && exists_(path.value)
  }

  /** The names of the usable entries, in order. */
  function Available(entries: seq<Entry>, config: map<string, string>, exists_: string -> bool): seq<string> {
    if entries == [] then []
    else
      var last := entries[|entries| - 1];
      Available(entries[..|entries| - 1], config, exists_) + (if Usable(config, exists_, last) then [last.name] else [])
  }

  /** The positions of the usable entries, in increasing order. */
  function Kept(entries: seq<Entry>, config: map<string, string>, exists_: string -> bool): (ks: seq<nat>)
    ensures forall i :: 0 <= i < |ks| ==> ks[i] < |entries| && Usable(config, exists_, entries[ks[i]])
    ensures forall i, j :: 0 <= i < j < |ks| ==> ks[i] < ks[j]
    ensures forall k :: 0 <= k < |entries| && Usable(config, exists_, entries[k]) ==> k in ks
  {
    if entries == [] then []
    else
      var n := |entries| - 1;
      var front := entries[..n];
      var ks := Kept(front, config, exists_);
      assert forall k :: 0 <= k < n ==> front[k] == entries[k];
      ks + (if Usable(config, exists_, entries[n]) then [n] else [])
  }

  /** The available names are the names of the usable entries, in catalogue order. */
  lemma {:induction false} AvailableIsKept(entries: seq<Entry>, config: map<string, string>, exists_: string -> bool)
    ensures var ks := Kept(entries, config, exists_);
            var r := Available(entries, config, exists_);
            |r| == |ks| && forall i :: 0 <= i < |r| ==> r[i] == entries[ks[i]].name
  {
    if entries != [] {
      var n := |entries| - 1;
      AvailableIsKept(entries[..n], config, exists_);
      assert forall k :: 0 <= k < n ==> entries[..n][k] == entries[k];
    }
  }

  predicate DistinctNames(entries: seq<Entry>) {
    forall k, m :: 0 <= k < m < |entries| ==> entries[k].name != entries[m].name
  }

  /**
   * Over entries with distinct names, a name is listed exactly when its
   * entry is usable, and no name is listed twice.
   */
  lemma AvailabilityFacts(entries: seq<Entry>, config: map<string, string>, exists_: string -> bool)
    requires DistinctNames(entries)
    ensures var r := Available(entries, config, exists_);
            (forall k :: 0 <= k < |entries| ==> (entries[k].name in r <==> Usable(config, exists_, entries[k])))
            && (forall i, j :: 0 <= i < j < |r| ==> r[i] != r[j])
  {
    var ks := Kept(entries, config, exists_);
    var r := Available(entries, config, exists_);
    AvailableIsKept(entries, config, exists_);
    forall k | 0 <= k < |entries|
      ensures entries[k].name in r <==> Usable(config, exists_, entries[k])
    {
      if Usable(config, exists_, entries[k]) {
        var i :| 0 <= i < |ks| && ks[i] == k;
        assert r[i] == entries[k].name;
      }
      if entries[k].name in r {
        var i :| 0 <= i < |r| && r[i] == entries[k].name;
        assert entries[ks[i]].name == entries[k].name;
      }
    }
    forall i, j | 0 <= i < j < |r|
      ensures r[i] != r[j]
    {
      assert ks[i] < ks[j];
    }
  }

  /**
   * A name is listed exactly when its configured path is set, non-empty and
   * exists; the list keeps the order Llama 3, Mistral, Gemma and so never
   * repeats a name.
   */
  lemma CatalogueAvailability(config: map<string, string>, exists_: string -> bool)
    ensures var r := Available(Catalogue, config, exists_);
            (forall k :: 0 <= k < |Catalogue| ==> (Catalogue[k].name in r <==> Usable(config, exists_, Catalogue[k])))
            && (forall i, j :: 0 <= i < j < |r| ==> r[i] != r[j])
  {
    assert DistinctNames(Catalogue);
    AvailabilityFacts(Catalogue, config, exists_);
  }

  class ModelHandler {
    var config: map<string, string>
    /** `loaded_models`: the handles of loaded models by name; loading is not part of this model. */
    var loadedModels: map<string, string>
    var availableModels: seq<string>

    /** `__init__`: keep the configuration, start with no loaded model, then run the availability check. */
    constructor(config: map<string, string>, exists_: string -> bool)
      ensures this.config == config
      ensures loadedModels == map[]
      ensures availableModels == Available(Catalogue, config, exists_)
    {
      this.config := config;
      loadedModels := map[];
      availableModels := [];
      new;
      CheckAvailableModels(exists_);
    }

    /** `check_available_models`: rebuild the list from empty, one catalogue entry at a time. */
    method CheckAvailableModels(exists_: string -> bool)
      modifies this
      ensures availableModels == Available(Catalogue, config, exists_)
      ensures config == old(config) && loadedModels == old(loadedModels)
    {
      availableModels := [];
      for k := 0 to |Catalogue|
        invariant availableModels == Available(Catalogue[..k], config, exists_)
        invariant config == old(config) && loadedModels == old(loadedModels)
      {
        assert Catalogue[..k + 1][..k] == Catalogue[..k];
        var path := PathOf(config, Catalogue[k].pathKey);
        if path.Some? && path.value != "" && exists_(path.value) {
          availableModels := availableModels + [Catalogue[k].name];
        }
      }
      assert Catalogue[..|Catalogue|] == Catalogue;
    }
  }
}

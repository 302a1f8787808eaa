/** The order in which BaseConfig consults its settings sources, and what that
    order means for the value a field ends up with. Reading the sources
    themselves is not modelled: each source is the flat key -> value map it
    yields for one resolution pass. */
module Sources {
  import opened Wrappers

  /** The sources handed to `settings_customise_sources`, plus the two it adds. */
  datatype SourceKind =
    | SecretFiles    // file_secret_settings: one file per field in a secrets directory
    | PyprojectToml  // the [tool.configs] table of pyproject.toml
    | ConfigsToml    // a dedicated TOML file
    | EnvVars        // OS environment variables
    | DotEnv         // the .env file
    | InitArgs       // keyword arguments given to the constructor

  /** The tuple returned by `settings_customise_sources`, highest priority first. */
  const Priority: seq<SourceKind> := [SecretFiles, PyprojectToml, ConfigsToml, EnvVars, DotEnv, InitArgs]

  type Key = string

  /** What every source yields for one pass; a source absent from the map yields nothing. */
  type Layers<V> = map<SourceKind, map<Key, V>>

  predicate Defines<V>(layers: Layers<V>, kind: SourceKind, key: Key) {
    kind in layers && key in layers[kind]
  }

  /** The entries of one source (empty when the source yields nothing). */
  function LayerOf<V>(layers: Layers<V>, kind: SourceKind): map<Key, V> {
    if kind in layers then layers[kind] else map[]
  }

  /** No source appears twice in `order`. */
  predicate Distinct(order: seq<SourceKind>) {
    forall p, q :: 0 <= p < q < |order| ==> order[p] != order[q]
  }

  /** The position of a source in Priority: every source appears there exactly once. */
  function Rank(kind: SourceKind): (r: nat)
    ensures r < |Priority| && Priority[r] == kind
    ensures forall i :: 0 <= i < |Priority| && Priority[i] == kind ==> i == r
  {
    match kind
    case SecretFiles => 0
    case PyprojectToml => 1
    case ConfigsToml => 2
    case EnvVars => 3
    case DotEnv => 4
    case InitArgs => 5
  }

  /** `order[i]` defines `key` and no source before it in `order` does. */
  predicate FirstDefinerAt<V>(order: seq<SourceKind>, layers: Layers<V>, key: Key, i: nat) {
    i < |order| && Defines(layers, order[i], key) &&
    forall j :: 0 <= j < i ==> !Defines(layers, order[j], key)
  }

  /** The value of `key` in the first source of `order` that defines it. */
  function FirstMatch<V>(order: seq<SourceKind>, layers: Layers<V>, key: Key): (r: Option<V>)
    ensures r.None? <==> forall i :: 0 <= i < |order| ==> !Defines(layers, order[i], key)
    ensures r.Some? ==> exists i: nat :: FirstDefinerAt(order, layers, key, i) && layers[order[i]][key] == r.value
  {
    if order == [] then None
    else if Defines(layers, order[0], key) then
      assert FirstDefinerAt(order, layers, key, 0);
      Some(layers[order[0]][key])
    else
      var r := FirstMatch(order[1..], layers, key);
      assert forall i :: 1 <= i < |order| ==> order[i] == order[1..][i - 1];
      assert forall i: nat :: FirstDefinerAt(order[1..], layers, key, i) ==> FirstDefinerAt(order, layers, key, i + 1);
      r
  }

  /** The value a field receives: the first source in Priority that defines it,
      otherwise the field's default (`None` when the field has no default, in
      which case validation fails). */
  function Resolve<V>(layers: Layers<V>, key: Key, default: Option<V>): (r: Option<V>)
    ensures (forall k :: !Defines(layers, k, key)) ==> r == default
    ensures (exists k :: Defines(layers, k, key)) ==>
              exists i: nat :: FirstDefinerAt(Priority, layers, key, i) && r == Some(layers[Priority[i]][key])
  {
    match FirstMatch(Priority, layers, key)
    case Some(v) => Some(v)
    case None =>
      assert forall k :: !Defines(layers, k, key) by {
        forall k ensures !Defines(layers, k, key) {
          assert !Defines(layers, Priority[Rank(k)], key);
        }
      }
      default
  }

  /** The merge written the other way round: apply the sources from the lowest
      priority to the highest, each one overwriting the keys it defines. */
  function Merge<V>(order: seq<SourceKind>, layers: Layers<V>): map<Key, V> {
    if order == [] then map[] else Merge(order[1..], layers) + LayerOf(layers, order[0])
  }

  /** Overwriting from the lowest source up gives the same value as taking the
      first definer from the highest source down. */
  lemma {:induction false} MergeIsFirstMatch<V>(order: seq<SourceKind>, layers: Layers<V>, key: Key)
    ensures key in Merge(order, layers) <==> FirstMatch(order, layers, key).Some?
    ensures key in Merge(order, layers) ==> Merge(order, layers)[key] == FirstMatch(order, layers, key).value
  {
    if order != [] {
      MergeIsFirstMatch(order[1..], layers, key);
    }
  }

  /** `layers` with `key` removed from the source `kind`. */
  function Without<V>(layers: Layers<V>, kind: SourceKind, key: Key): (r: Layers<V>)
    ensures !Defines(r, kind, key)
    ensures forall k :: k != kind ==> LayerOf(r, k) == LayerOf(layers, k)
  {
    if kind in layers then layers[kind := layers[kind] - {key}] else layers
  }

  /** Once a source defines `key`, what any later source in `order` holds for it
      does not matter. */
  lemma {:induction false} LowerSourceIgnored<V>(order: seq<SourceKind>, layers: Layers<V>, key: Key, i: nat, j: nat)
    requires Distinct(order)
    requires i < j < |order|
    requires Defines(layers, order[i], key)
    ensures FirstMatch(order, Without(layers, order[j], key), key) == FirstMatch(order, layers, key)
  {
    var dropped := Without(layers, order[j], key);
    var before, after := FirstMatch(order, layers, key), FirstMatch(order, dropped, key);
    assert before.Some?;
    var p: nat :| FirstDefinerAt(order, layers, key, p) && layers[order[p]][key] == before.value;
    assert order[p] != order[j];
    assert LayerOf(dropped, order[p]) == LayerOf(layers, order[p]);
    var q: nat :| FirstDefinerAt(order, dropped, key, q) && dropped[order[q]][key] == after.value;
    assert Defines(layers, order[q], key);
    assert q == p;
  }

  /** Of two sources that both define `key`, the one earlier in Priority decides:
      removing the key from the later one leaves the resolved value as it was. */
  lemma HigherSourceWins<V>(layers: Layers<V>, key: Key, default: Option<V>, higher: SourceKind, lower: SourceKind)
    requires Rank(higher) < Rank(lower)
    requires Defines(layers, higher, key)
    ensures Resolve(Without(layers, lower, key), key, default) == Resolve(layers, key, default)
  {
    LowerSourceIgnored(Priority, layers, key, Rank(higher), Rank(lower));
  }

  /** A secret file beats every other source. */
  lemma SecretFilesWin<V>(layers: Layers<V>, key: Key, default: Option<V>)
    requires Defines(layers, SecretFiles, key)
    ensures Resolve(layers, key, default) == Some(layers[SecretFiles][key])
  {
  }

  /** A constructor argument is used exactly when no other source defines the key. */
  lemma InitArgsLowest<V>(layers: Layers<V>, key: Key, default: Option<V>)
    requires Defines(layers, InitArgs, key)
    ensures (forall k :: k != InitArgs ==> !Defines(layers, k, key)) ==>
              Resolve(layers, key, default) == Some(layers[InitArgs][key])
    ensures (exists k :: k != InitArgs && Defines(layers, k, key)) ==>
              exists k :: k != InitArgs && Defines(layers, k, key) && Resolve(layers, key, default) == Some(layers[k][key])
  {
    var r := FirstMatch(Priority, layers, key);
    assert Defines(layers, Priority[Rank(InitArgs)], key);
    var i: nat :| FirstDefinerAt(Priority, layers, key, i) && layers[Priority[i]][key] == r.value;
    if forall k :: k != InitArgs ==> !Defines(layers, k, key) {
      assert Priority[i] == InitArgs;
    }
    if exists k :: k != InitArgs && Defines(layers, k, key) {
      var k :| k != InitArgs && Defines(layers, k, key);
      assert i <= Rank(k);
      assert Priority[i] != InitArgs;
    }
  }

  /** The field default is used exactly when no source defines the key;
      otherwise the value comes from some source that defines it. */
  lemma DefaultOnlyWhenUndefined<V>(layers: Layers<V>, key: Key, default: Option<V>)
    ensures (forall k :: !Defines(layers, k, key)) ==> Resolve(layers, key, default) == default
    ensures (exists k :: Defines(layers, k, key)) ==>
              exists k :: Defines(layers, k, key) && Resolve(layers, key, default) == Some(layers[k][key])
  {
    var r := FirstMatch(Priority, layers, key);
    if exists k :: Defines(layers, k, key) {
      var k :| Defines(layers, k, key);
      assert Defines(layers, Priority[Rank(k)], key);
      var i: nat :| FirstDefinerAt(Priority, layers, key, i) && layers[Priority[i]][key] == r.value;
      assert Defines(layers, Priority[i], key);
    }
  }
}

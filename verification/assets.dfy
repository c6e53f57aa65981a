/**
 * The asset cache (AssetProvider.h, AssetManager.h). A provider memoises one asset type by
 * name; the manager keeps one provider per asset type, created on first use.
 *
 * Assets are values of a type parameter `A` (a null `shared_ptr` is just one such value), the
 * C++ types are tags, and `AssetLoader<T>::Load` is a function passed in. Each result also
 * reports how many times the loader ran.
 */
module Assets {

  /** An `AssetProvider<T>`'s map from names to loaded assets. */
  type Provider<A> = map<string, A>

  /** The result of a lookup: the provider afterwards, the asset and the number of loads. */
  datatype Fetch<A> = Fetch(provider: Provider<A>, asset: A, loads: nat)

  /**
   * `AssetProvider::GetAsset`: a cached name returns its asset without loading; a missing
   * name is loaded once and the result, whatever it is, is stored under the name.
   */
  function GetAsset<A>(p: Provider<A>, load: string -> A, name: string): (r: Fetch<A>)
    ensures name in p ==> r.asset == p[name] && r.provider == p && r.loads == 0
    ensures name !in p ==> r.asset == load(name) && r.provider == p[name := load(name)] && r.loads == 1
  {
    if name in p then Fetch(p, p[name], 0)
    else
      var asset := load(name);
      Fetch(p[name := asset], asset, 1)
  }

  /** `AssetProvider::AddAsset`: `emplace`, which never overwrites an existing entry. */
  function AddAsset<A>(p: Provider<A>, name: string, asset: A): (r: Provider<A>)
    ensures name in r && r.Keys == p.Keys + {name}
    ensures name in p ==> r[name] == p[name]
    ensures name !in p ==> r[name] == asset
  {
    if name in p then p else p[name := asset]
  }

  /** A second lookup of the same name returns the same asset, loads nothing and changes nothing. */
  lemma GetAssetMemoises<A>(p: Provider<A>, load: string -> A, name: string)
    ensures var first := GetAsset(p, load, name);
      var second := GetAsset(first.provider, load, name);
      && second.asset == first.asset && second.provider == first.provider && second.loads == 0
  {
  }

  /** Lookups never change the entry of another name, and keep every cached name. */
  lemma GetAssetKeepsOtherNames<A>(p: Provider<A>, load: string -> A, name: string, other: string)
    requires other != name && other in p
    ensures var r := GetAsset(p, load, name).provider; other in r && r[other] == p[other]
  {
  }

  /** Adding never changes the entry of another name. */
  lemma AddAssetKeepsOtherNames<A>(p: Provider<A>, name: string, asset: A, other: string)
    requires other != name && other in p
    ensures var r := AddAsset(p, name, asset); other in r && r[other] == p[other]
  {
  }

  /** An added asset is what later lookups return, with no load; adding again is ignored. */
  lemma AddThenGet<A>(p: Provider<A>, load: string -> A, name: string, asset: A, later: A)
    requires name !in p
    ensures var q := AddAsset(p, name, asset);
      && GetAsset(q, load, name) == Fetch(q, asset, 0)
      && AddAsset(q, name, later) == q
  {
  }

  /** A name loaded by a lookup cannot be replaced by a later add. */
  lemma GetThenAddKeepsLoaded<A>(p: Provider<A>, load: string -> A, name: string, asset: A)
    ensures var f := GetAsset(p, load, name);
      AddAsset(f.provider, name, asset) == f.provider
  {
  }

  /** The type key of `m_AssetTypes`: one tag per C++ asset type. */
  type TypeTag = string

  /** `m_AssetTypes`: the providers created so far, by type. */
  type Manager<A> = map<TypeTag, Provider<A>>

  /** The provider lookup both manager operations start with: a new empty provider on a miss. */
  function ProviderFor<A>(m: Manager<A>, t: TypeTag): (p: Provider<A>)
    ensures t in m ==> p == m[t]
    ensures t !in m ==> p == map[]
  {
    if t in m then m[t] else map[]
  }

  /** The manager's result: the provider table afterwards and the asset. */
  datatype ManagerFetch<A> = ManagerFetch(manager: Manager<A>, asset: A, loads: nat)

  /** `AssetManager::GetAsset<T>`: finds or creates `T`'s provider and asks it. */
  function ManagerGetAsset<A>(m: Manager<A>, load: (TypeTag, string) -> A, t: TypeTag, name: string)
    : (r: ManagerFetch<A>)
    ensures r.manager.Keys == m.Keys + {t}
    ensures var f := GetAsset(ProviderFor(m, t), s => load(t, s), name);
      r.asset == f.asset && r.manager[t] == f.provider && r.loads == f.loads
    ensures forall u :: u in m && u != t ==> r.manager[u] == m[u]
  {
    var f := GetAsset(ProviderFor(m, t), s => load(t, s), name);
    ManagerFetch(m[t := f.provider], f.asset, f.loads)
  }

  /** `AssetManager::AddAsset<T>`: finds or creates `T`'s provider and adds to it. */
  function ManagerAddAsset<A>(m: Manager<A>, t: TypeTag, name: string, asset: A): (r: Manager<A>)
    ensures r.Keys == m.Keys + {t}
    ensures r[t] == AddAsset(ProviderFor(m, t), name, asset)
    ensures forall u :: u in m && u != t ==> r[u] == m[u]
  {
    m[t := AddAsset(ProviderFor(m, t), name, asset)]
  }

  /** The first use of a type creates exactly one provider; later uses reuse it. */
  lemma ProviderCreatedOnce<A>(m: Manager<A>, load: (TypeTag, string) -> A, t: TypeTag, name: string, name2: string)
    requires t !in m
    ensures var m1 := ManagerGetAsset(m, load, t, name).manager;
      && |m1.Keys| == |m.Keys| + 1
      && ManagerGetAsset(m1, load, t, name2).manager.Keys == m1.Keys
  {
    var m1 := ManagerGetAsset(m, load, t, name).manager;
    assert m1.Keys == m.Keys + {t};
  }

  /** A manager lookup is memoised per type: the second lookup of a name loads nothing. */
  lemma ManagerGetAssetMemoises<A>(m: Manager<A>, load: (TypeTag, string) -> A, t: TypeTag, name: string)
    ensures var first := ManagerGetAsset(m, load, t, name);
      var second := ManagerGetAsset(first.manager, load, t, name);
      && second.asset == first.asset && second.manager == first.manager && second.loads == 0
  {
    var first := ManagerGetAsset(m, load, t, name);
    GetAssetMemoises(ProviderFor(m, t), s => load(t, s), name);
    assert ProviderFor(first.manager, t) == first.manager[t];
  }

  /** Assets of one type added through the manager are what that type's lookups return. */
  lemma ManagerAddThenGet<A>(m: Manager<A>, load: (TypeTag, string) -> A, t: TypeTag, name: string, asset: A)
    requires t !in m || name !in m[t]
    ensures var m1 := ManagerAddAsset(m, t, name, asset);
      var r := ManagerGetAsset(m1, load, t, name);
      r.asset == asset && r.loads == 0 && r.manager == m1
  {
    var m1 := ManagerAddAsset(m, t, name, asset);
    assert ProviderFor(m1, t) == m1[t];
    assert m1[t][name] == asset;
  }
}

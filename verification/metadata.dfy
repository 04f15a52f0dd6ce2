/**
 The reflected class metadata the decorators write and the provider registry
 reads, made explicit as one record per class, and the three decorators of
 src/decorators/provider.ts as writes to that store.
 */
module Metadata {
  import opened Common

  /** Flag written by the `Provider()` decorator. */
  const PROVIDER_KEY := "zyro:provider"
  /** Flag written by the `Injectable()` decorator. */
  const INJECTABLE_KEY := "zyro:injectable"
  /** Flag `ProvidersService.register` requires before it constructs anything. */
  const IS_PROVIDER_KEY := "provider:isProvider"

  /**
   The metadata defined on one class itself (its "own" metadata):
   boolean markers by key, the compiler-emitted 'design:paramtypes' list and
   the 'zyro:inject' map from constructor-parameter index to token.
   */
  datatype ClassMetadata = ClassMetadata(
    flags: map<string, bool>,
    paramTypes: Option<seq<ClassRef>>,
    injections: Option<map<nat, Token>>)

  const NoMetadata := ClassMetadata(map[], None, None)

  /** The process-wide metadata store, by class. */
  type Store = map<ClassRef, ClassMetadata>

  /** `Reflect.getOwnMetadata` for every key of a class at once. */
  function OwnMetadata(store: Store, cls: ClassRef): ClassMetadata {
    if cls in store then store[cls] else NoMetadata
  }

  /** The flag a class defines itself under `key`, if any. */
  function OwnFlag(store: Store, key: string, cls: ClassRef): Option<bool> {
    var own := OwnMetadata(store, cls);
    if key in own.flags then Some(own.flags[key]) else None
  }

  /** The class and its base classes, nearest first: the chain `Reflect.getMetadata` walks. */
  function Lineage(cls: ClassRef): (r: seq<ClassRef>)
    ensures |r| >= 1 && r[0] == cls
    decreases cls
  {
    match cls.base
    case None => [cls]
    case Some(b) => [cls] + Lineage(b)
  }

  /** `Reflect.getMetadata(key, cls)` for a flag: the nearest class on the chain that defines `key` decides. */
  function GetFlag(store: Store, key: string, cls: ClassRef): (r: Option<bool>)
    ensures r.None? <==> forall c :: c in Lineage(cls) ==> OwnFlag(store, key, c).None?
    ensures r.Some? ==> exists c :: c in Lineage(cls) && OwnFlag(store, key, c) == r
    decreases cls
  {
    match OwnFlag(store, key, cls)
    case Some(v) => Some(v)
    case None =>
      match cls.base
      case None => None
      case Some(b) => GetFlag(store, key, b)
  }

  /** `Reflect.getMetadata('design:paramtypes', cls) || []`. */
  function ParamTypes(store: Store, cls: ClassRef): (r: seq<ClassRef>)
    ensures OwnMetadata(store, cls).paramTypes.Some? ==> r == OwnMetadata(store, cls).paramTypes.value
    ensures (forall c :: c in Lineage(cls) ==> OwnMetadata(store, c).paramTypes.None?) ==> r == []
    decreases cls
  {
    match OwnMetadata(store, cls).paramTypes
    case Some(ts) => ts
    case None =>
      match cls.base
      case None => []
      case Some(b) => ParamTypes(store, b)
  }

  /**
   Position `i` of the chain holds the nearest class that defines `key` itself:
   it does, and no class before it does.
   */
  predicate NearestFlag(store: Store, key: string, cls: ClassRef, i: int) {
    && 0 <= i < |Lineage(cls)|
    && OwnFlag(store, key, Lineage(cls)[i]).Some?
    && forall j :: 0 <= j < i ==> OwnFlag(store, key, Lineage(cls)[j]).None?
  }

  /**
   A flag lookup returns what the NEAREST defining class says: a subclass that
   defines the key overrides every base class, whatever the bases define.
   */
  lemma {:induction false} GetFlagNearest(store: Store, key: string, cls: ClassRef, i: int)
    requires NearestFlag(store, key, cls, i)
    ensures GetFlag(store, key, cls) == OwnFlag(store, key, Lineage(cls)[i])
    decreases cls
  {
    if i > 0 {
      assert OwnFlag(store, key, Lineage(cls)[0]).None?;
      var b := cls.base.value;
      assert Lineage(cls)[i] == Lineage(b)[i - 1];
      forall j | 0 <= j < i - 1 ensures OwnFlag(store, key, Lineage(b)[j]).None? {
        assert Lineage(b)[j] == Lineage(cls)[j + 1];
      }
      GetFlagNearest(store, key, b, i - 1);
    }
  }

  /** Position `i` of the chain holds the nearest class that declares its own parameter types. */
  predicate NearestParamTypes(store: Store, cls: ClassRef, i: int) {
    && 0 <= i < |Lineage(cls)|
    && OwnMetadata(store, Lineage(cls)[i]).paramTypes.Some?
    && forall j :: 0 <= j < i ==> OwnMetadata(store, Lineage(cls)[j]).paramTypes.None?
  }

  /**
   A class without a parameter-type list of its own inherits the list of the
   nearest base class that has one.
   */
  lemma {:induction false} ParamTypesNearest(store: Store, cls: ClassRef, i: int)
    requires NearestParamTypes(store, cls, i)
    ensures ParamTypes(store, cls) == OwnMetadata(store, Lineage(cls)[i]).paramTypes.value
    decreases cls
  {
    if i > 0 {
      assert OwnMetadata(store, Lineage(cls)[0]).paramTypes.None?;
      var b := cls.base.value;
      assert Lineage(cls)[i] == Lineage(b)[i - 1];
      forall j | 0 <= j < i - 1 ensures OwnMetadata(store, Lineage(b)[j]).paramTypes.None? {
        assert Lineage(b)[j] == Lineage(cls)[j + 1];
      }
      ParamTypesNearest(store, b, i - 1);
    }
  }

  /** `Reflect.defineMetadata(key, true, target)`. */
  function DefineFlag(store: Store, key: string, target: ClassRef): (r: Store)
    ensures OwnFlag(r, key, target) == Some(true)
    ensures forall k :: k != key ==> OwnFlag(r, k, target) == OwnFlag(store, k, target)
    ensures OwnMetadata(r, target).paramTypes == OwnMetadata(store, target).paramTypes
    ensures OwnMetadata(r, target).injections == OwnMetadata(store, target).injections
    ensures forall c :: c != target ==> OwnMetadata(r, c) == OwnMetadata(store, c)
  {
    var own := OwnMetadata(store, target);
    store[target := own.(flags := own.flags[key := true])]
  }

  /** The `@Provider()` class decorator. */
  function Provider(store: Store, target: ClassRef): (r: Store)
    ensures OwnFlag(r, PROVIDER_KEY, target) == Some(true)
    ensures forall k :: k != PROVIDER_KEY ==> OwnFlag(r, k, target) == OwnFlag(store, k, target)
    ensures OwnMetadata(r, target).paramTypes == OwnMetadata(store, target).paramTypes
    ensures OwnMetadata(r, target).injections == OwnMetadata(store, target).injections
    ensures forall c :: c != target ==> OwnMetadata(r, c) == OwnMetadata(store, c)
  {
    DefineFlag(store, PROVIDER_KEY, target)
  }

  /** The `@Injectable()` class decorator. */
  function Injectable(store: Store, target: ClassRef): (r: Store)
    ensures OwnFlag(r, INJECTABLE_KEY, target) == Some(true)
    ensures forall k :: k != INJECTABLE_KEY ==> OwnFlag(r, k, target) == OwnFlag(store, k, target)
    ensures OwnMetadata(r, target).paramTypes == OwnMetadata(store, target).paramTypes
    ensures OwnMetadata(r, target).injections == OwnMetadata(store, target).injections
    ensures forall c :: c != target ==> OwnMetadata(r, c) == OwnMetadata(store, c)
  {
    DefineFlag(store, INJECTABLE_KEY, target)
  }

  /**
   The `@Inject(token)` decorator on constructor parameter `index` of `target`:
   it extends the class's OWN injection map (an inherited map is not copied).
   */
  function Inject(store: Store, target: ClassRef, index: nat, token: Token): (r: Store)
    ensures OwnMetadata(r, target).injections.Some?
    ensures index in OwnMetadata(r, target).injections.value
    ensures OwnMetadata(r, target).injections.value[index] == token
    ensures forall j :: j != index ==>
      (j in OwnMetadata(r, target).injections.value <==>
         OwnMetadata(store, target).injections.Some? && j in OwnMetadata(store, target).injections.value)
    ensures forall j :: j != index && j in OwnMetadata(r, target).injections.value ==>
      OwnMetadata(r, target).injections.value[j] == OwnMetadata(store, target).injections.value[j]
    ensures OwnMetadata(r, target).flags == OwnMetadata(store, target).flags
    ensures OwnMetadata(r, target).paramTypes == OwnMetadata(store, target).paramTypes
    ensures forall c :: c != target ==> OwnMetadata(r, c) == OwnMetadata(store, c)
  {
    var own := OwnMetadata(store, target);
    var existing: map<nat, Token> := own.injections.GetOr(map[]);
    store[target := own.(injections := Some(existing[index := token]))]
  }

  /** Applying `@Inject` twice at one index keeps the token applied last. */
  lemma InjectLastWins(store: Store, target: ClassRef, index: nat, first: Token, second: Token)
    ensures Inject(Inject(store, target, index, first), target, index, second) == Inject(store, target, index, second)
  {
    var own := OwnMetadata(store, target);
    var existing: map<nat, Token> := own.injections.GetOr(map[]);
    assert existing[index := first][index := second] == existing[index := second];
  }

  /** `@Inject` at two different indices records both, in either order. */
  lemma InjectDistinctIndicesCommute(store: Store, target: ClassRef, i: nat, j: nat, a: Token, b: Token)
    requires i != j
    ensures Inject(Inject(store, target, i, a), target, j, b) == Inject(Inject(store, target, j, b), target, i, a)
  {
    var existing: map<nat, Token> := OwnMetadata(store, target).injections.GetOr(map[]);
    assert existing[i := a][j := b] == existing[j := b][i := a];
  }

  /**
   A flag lookup only depends on what each class defines itself under that key:
   two stores that agree on every class's own `key` flag answer alike.
   */
  lemma {:induction false} GetFlagDependsOnOwnFlags(s1: Store, s2: Store, key: string, cls: ClassRef)
    requires forall c :: OwnFlag(s1, key, c) == OwnFlag(s2, key, c)
    ensures GetFlag(s1, key, cls) == GetFlag(s2, key, cls)
    decreases cls
  {
    match cls.base
    case None =>
    case Some(b) => GetFlagDependsOnOwnFlags(s1, s2, key, b);
  }

  /**
   The declared parameter types only depend on what each class declares
   itself: two stores that agree on every class's own list answer alike.
   */
  lemma {:induction false} ParamTypesDependsOnOwn(s1: Store, s2: Store, cls: ClassRef)
    requires forall c :: OwnMetadata(s1, c).paramTypes == OwnMetadata(s2, c).paramTypes
    ensures ParamTypes(s1, cls) == ParamTypes(s2, cls)
    decreases cls
  {
    match cls.base
    case None =>
    case Some(b) => ParamTypesDependsOnOwn(s1, s2, b);
  }

  /**
   `@Provider()` and `@Injectable()` never make a class look like a provider to
   the registry: they write other keys than 'provider:isProvider'.
   */
  lemma DecoratorsLeaveRegistryFlag(store: Store, target: ClassRef, cls: ClassRef)
    ensures GetFlag(Provider(store, target), IS_PROVIDER_KEY, cls) == GetFlag(store, IS_PROVIDER_KEY, cls)
    ensures GetFlag(Injectable(store, target), IS_PROVIDER_KEY, cls) == GetFlag(store, IS_PROVIDER_KEY, cls)
  {
    assert PROVIDER_KEY != IS_PROVIDER_KEY;
    assert INJECTABLE_KEY != IS_PROVIDER_KEY;
    var p := Provider(store, target);
    var i := Injectable(store, target);
    assert forall c :: OwnFlag(p, IS_PROVIDER_KEY, c) == OwnFlag(store, IS_PROVIDER_KEY, c) by {
      forall c ensures OwnFlag(p, IS_PROVIDER_KEY, c) == OwnFlag(store, IS_PROVIDER_KEY, c) {
        if c == target {
        } else {
          assert OwnMetadata(p, c) == OwnMetadata(store, c);
        }
      }
    }
    assert forall c :: OwnFlag(i, IS_PROVIDER_KEY, c) == OwnFlag(store, IS_PROVIDER_KEY, c) by {
      forall c ensures OwnFlag(i, IS_PROVIDER_KEY, c) == OwnFlag(store, IS_PROVIDER_KEY, c) {
        if c == target {
        } else {
          assert OwnMetadata(i, c) == OwnMetadata(store, c);
        }
      }
    }
    GetFlagDependsOnOwnFlags(p, store, IS_PROVIDER_KEY, cls);
    GetFlagDependsOnOwnFlags(i, store, IS_PROVIDER_KEY, cls);
  }
}

/** The process-wide class registry (gdnative-core/src/export/class_registry.rs):
    a map from a class's type identity to the name it was registered under. */
module ClassRegistry {
  import opened Wrappers

  /** The identity of a Rust type (`TypeId`); two classes share a key only
      if they are the same type. */
  datatype TypeKey = TypeKey(id: nat)

  /** What is recorded about a registered class. */
  datatype ClassInfo = ClassInfo(name: string)

  /** The registry behind `CLASS_REGISTRY`. */
  class Registry {
    var entries: map<TypeKey, ClassInfo>

    /** The registry starts out empty. */
    constructor()
      ensures entries == map[]
    {
      entries := map[];
    }

    /** `with_class_info`: `f` applied to the class's record, if registered. */
    function WithClassInfo<R>(key: TypeKey, f: ClassInfo -> R): (r: Option<R>)
      reads this
      ensures r.Some? <==> key in entries
      ensures r.Some? ==> r.value == f(entries[key])
    {
      if key in entries then Some(f(entries[key])) else None
    }

    /** `class_name`: the registered name, if any. */
    function ClassName(key: TypeKey): (r: Option<string>)
      reads this
      ensures r.Some? <==> key in entries
      ensures r.Some? ==> r.value == entries[key].name
    {
      WithClassInfo(key, (i: ClassInfo) => i.name)
    }

    /** `class_name_or_default`: the registered name, or the type's own
        name `typeName` (`std::any::type_name`) when not registered. */
    function ClassNameOrDefault(key: TypeKey, typeName: string): (r: string)
      reads this
      ensures key in entries ==> r == entries[key].name
      ensures key !in entries ==> r == typeName
    {
      ClassName(key).GetOr(typeName)
    }

    /** `register_class_as`: records `name` for the class, replacing and
        returning any earlier record; other classes are untouched. */
    method RegisterClassAs(key: TypeKey, name: string) returns (previous: Option<ClassInfo>)
      modifies this
      ensures previous == if key in old(entries) then Some(old(entries)[key]) else None
      ensures entries == old(entries)[key := ClassInfo(name)]
    {
      previous := if key in entries then Some(entries[key]) else None;
      entries := entries[key := ClassInfo(name)];
    }

    /** `cleanup`: forgets every class. */
    method Cleanup()
      modifies this
      ensures entries == map[]
    {
      entries := map[];
    }
  }

  /** Registering a class twice: the first call returns nothing, the second
      returns the first record, and the second name wins. */
  method RegisterTwice(key: TypeKey, first: string, second: string)
    returns (r1: Option<ClassInfo>, r2: Option<ClassInfo>, name: Option<string>)
    ensures r1 == None
    ensures r2 == Some(ClassInfo(first))
    ensures name == Some(second)
  {
    var registry := new Registry();
    r1 := registry.RegisterClassAs(key, first);
    r2 := registry.RegisterClassAs(key, second);
    name := registry.ClassName(key);
  }

  /** Registering one class leaves the name of another unchanged. */
  method RegisterIndependent(k1: TypeKey, k2: TypeKey, n1: string, n2: string)
    returns (name1: Option<string>, name2: Option<string>)
    requires k1 != k2
    ensures name1 == Some(n1)
    ensures name2 == Some(n2)
  {
    var registry := new Registry();
    var _ := registry.RegisterClassAs(k1, n1);
    var _ := registry.RegisterClassAs(k2, n2);
    name1 := registry.ClassName(k1);
    name2 := registry.ClassName(k2);
  }

  /** After `cleanup` no class is registered: lookups fail and the
      diagnostic name falls back to the type's own name. */
  method CleanupForgets(key: TypeKey, name: string, typeName: string)
    returns (before: Option<string>, after: Option<string>, shown: string)
    ensures before == Some(name)
    ensures after == None
    ensures shown == typeName
  {
    var registry := new Registry();
    var _ := registry.RegisterClassAs(key, name);
    before := registry.ClassName(key);
    registry.Cleanup();
    after := registry.ClassName(key);
    shown := registry.ClassNameOrDefault(key, typeName);
  }
}

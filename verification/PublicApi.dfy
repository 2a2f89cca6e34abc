/** Public API resolution: following import aliases, and finding data contract types through base classes. */
module PublicApi {
  import opened Options

  /** A module and a name in it. */
  type Key = (string, string)

  // -- Import aliases ---------------------------------------------------------------------

  /** The key after `n` import hops, while there are hops to take. */
  ghost function Orbit(imports: map<Key, Key>, start: Key, n: nat): Option<Key> {
    if n == 0 then Some(start)
    else match Orbit(imports, start, n - 1)
         case Some(k) => if k in imports then Some(imports[k]) else None
         case None => None
  }

  /** The first definition on the orbit, reached after `n` hops. */
  ghost predicate FirstDefinition(definitions: set<Key>, imports: map<Key, Key>, start: Key, n: nat, k: Key) {
    && Orbit(imports, start, n) == Some(k) && k in definitions
    && forall m :: 0 <= m < n ==> Orbit(imports, start, m).Some? && Orbit(imports, start, m).value !in definitions
  }

  /** `resolve`: the first definition on the orbit, and nothing exactly when the orbit meets none. */
  method Resolve(definitions: set<Key>, imports: map<Key, Key>, start: Key) returns (found: Option<Key>)
    ensures found.Some? ==> exists n: nat :: FirstDefinition(definitions, imports, start, n, found.value)
    ensures found.None? ==> forall n: nat :: Orbit(imports, start, n).Some? ==>
              Orbit(imports, start, n).value !in definitions
  {
    var seen: set<Key>, current := {}, start;
    ghost var hops: nat := 0;
    while current !in seen
      invariant Orbit(imports, start, hops) == Some(current)
      invariant forall m :: 0 <= m < hops ==> Orbit(imports, start, m).Some? && Orbit(imports, start, m).value in seen
      invariant forall k :: k in seen ==>
                  k in imports && k !in definitions && (imports[k] in seen || imports[k] == current)
      invariant start in seen || start == current
      decreases imports.Keys - seen
    {
      if current in definitions {
        assert FirstDefinition(definitions, imports, start, hops, current);
        return Some(current);
      }
      if current !in imports {
        forall n: nat ensures Orbit(imports, start, n).Some? ==> Orbit(imports, start, n).value !in definitions {
          OrbitStops(imports, start, hops, n);
        }
        return None;
      }
      seen := seen + {current};
      current, hops := imports[current], hops + 1;
    }
    forall n: nat ensures Orbit(imports, start, n).Some? ==> Orbit(imports, start, n).value !in definitions {
      OrbitTrapped(imports, start, seen, n);
    }
    return None;
  }

  /** Past a key without an import there is nothing. */
  lemma {:induction false} OrbitStops(imports: map<Key, Key>, start: Key, n: nat, m: nat)
    requires Orbit(imports, start, n).Some? && Orbit(imports, start, n).value !in imports
    ensures m > n ==> Orbit(imports, start, m).None?
    decreases m
  {
    if m > n + 1 { OrbitStops(imports, start, n, m - 1); }
  }

  /** A set closed under imports keeps the whole orbit. */
  lemma {:induction false} OrbitTrapped(imports: map<Key, Key>, start: Key, s: set<Key>, n: nat)
    requires start in s && forall k :: k in s ==> k in imports && imports[k] in s
    ensures Orbit(imports, start, n).Some? && Orbit(imports, start, n).value in s
  {
    if n > 0 { OrbitTrapped(imports, start, s, n - 1); }
  }

  // -- Data contracts ---------------------------------------------------------------------

  /** A base-class expression. */
  datatype Base = Name(id: string) | Attribute(attr: string) | Subscript(base: Base) | Opaque

  /** A top-level definition; only classes have bases that count. */
  datatype Node = ClassDef(bases: seq<Base>) | FunctionDef

  datatype Program = Program(nodes: map<Key, Node>, imports: map<Key, Key>)

  const CONTRACTS := {"BaseModel", "RootModel", "Enum", "IntEnum", "StrEnum"}

  /** The last name of a base, looking through one subscript. */
  function Leaf(b: Base): Option<string> {
    match (if b.Subscript? then b.base else b)
    case Name(id) => Some(id)
    case Attribute(attr) => Some(attr)
    case _ => None
  }

  function Target(p: Program, key: Key, leaf: string): Option<Key> {
    if (key.0, leaf) in p.nodes then Some((key.0, leaf))
    else if (key.0, leaf) in p.imports then Some(p.imports[(key.0, leaf)])
    else None
  }

  predicate Lists(b: Base) { Leaf(b).Some? && Leaf(b).value in CONTRACTS }

  /** The base is this name, plain, as an attribute, or under one subscript. */
  ghost predicate Spells(b: Base, x: string) {
    b in {Name(x), Attribute(x), Subscript(Name(x)), Subscript(Attribute(x))}
  }

  /** A base called `x` in the module of `key` means the definition `m`: the module's own, or else an imported one. */
  ghost predicate Leads(p: Program, key: Key, b: Base, m: Key) {
    && m in p.nodes
    && exists x :: Spells(b, x) && (if (key.0, x) in p.nodes then m == (key.0, x)
                                    else (key.0, x) in p.imports && m == p.imports[(key.0, x)])
  }

  lemma LeafSpells(b: Base, x: string)
    ensures Leaf(b) == Some(x) <==> Spells(b, x)
  {
  }

  lemma TargetLeads(p: Program, key: Key, b: Base, m: Key)
    ensures Leaf(b).Some? && Target(p, key, Leaf(b).value) == Some(m) && m in p.nodes <==> Leads(p, key, b, m)
  {
    if Leaf(b).Some? { LeafSpells(b, Leaf(b).value); }
    if Leads(p, key, b, m) {
      var x :| Spells(b, x)
        && (if (key.0, x) in p.nodes then m == (key.0, x) else (key.0, x) in p.imports && m == p.imports[(key.0, x)]);
      LeafSpells(b, x);
    }
  }

  /** `is_data_contract`, which refuses to enter a key of `seen` twice. */
  predicate IsDataContract(p: Program, key: Key, seen: set<Key>)
    requires key in p.nodes
    decreases p.nodes.Keys - seen
  {
    key !in seen && p.nodes[key].ClassDef?
    && var bases := p.nodes[key].bases;
       exists i :: 0 <= i < |bases| && (
         || Lists(bases[i])
         || (&& Leaf(bases[i]).Some? && Target(p, key, Leaf(bases[i]).value).Some?
             && var m := Target(p, key, Leaf(bases[i]).value).value;
                m in p.nodes && IsDataContract(p, m, seen + {key})))
  }

  ghost predicate ContractClass(p: Program, key: Key) {
    && key in p.nodes && p.nodes[key].ClassDef?
    && exists i, x :: 0 <= i < |p.nodes[key].bases| && Spells(p.nodes[key].bases[i], x) && x in CONTRACTS
  }

  ghost predicate BaseEdge(p: Program, key: Key, m: Key) {
    && key in p.nodes && p.nodes[key].ClassDef?
    && exists i :: 0 <= i < |p.nodes[key].bases| && Leads(p, key, p.nodes[key].bases[i], m)
  }

  /** A path of `n` base edges, none of whose nodes is in `avoid`, leads from `key` to a contract class. */
  ghost predicate Path(p: Program, key: Key, avoid: set<Key>, n: nat)
    decreases n
  {
    && key !in avoid
    && if n == 0 then ContractClass(p, key) else exists m :: BaseEdge(p, key, m) && Path(p, m, avoid, n - 1)
  }

  /** A path either stays clear of `k` as well, or passes through it, leaving a path from `k` that is no longer. */
  lemma {:induction false} PathThrough(p: Program, key: Key, k: Key, avoid: set<Key>, n: nat)
    requires Path(p, key, avoid, n)
    ensures Path(p, key, avoid + {k}, n) || exists j: nat :: j <= n && Path(p, k, avoid, j)
    decreases n
  {
    if key == k {
      assert Path(p, k, avoid, n);
    } else if n > 0 {
      var m :| BaseEdge(p, key, m) && Path(p, m, avoid, n - 1);
      PathThrough(p, m, k, avoid, n - 1);
      if Path(p, m, avoid + {k}, n - 1) { assert Path(p, key, avoid + {k}, n); }
    }
  }

  /** Every path is found, although the search never re-enters a node. */
  lemma {:induction false} PathIsFound(p: Program, key: Key, seen: set<Key>, n: nat)
    requires key in p.nodes && Path(p, key, seen, n)
    ensures IsDataContract(p, key, seen)
    decreases p.nodes.Keys - seen, n
  {
    if n == 0 {
      var i, x :| 0 <= i < |p.nodes[key].bases| && Spells(p.nodes[key].bases[i], x) && x in CONTRACTS;
      LeafSpells(p.nodes[key].bases[i], x);
    } else {
      var m :| BaseEdge(p, key, m) && Path(p, m, seen, n - 1);
      var i :| 0 <= i < |p.nodes[key].bases| && Leads(p, key, p.nodes[key].bases[i], m);
      TargetLeads(p, key, p.nodes[key].bases[i], m);
      PathThrough(p, m, key, seen, n - 1);
      if Path(p, m, seen + {key}, n - 1) {
        PathIsFound(p, m, seen + {key}, n - 1);
      } else {
        var j: nat :| j <= n - 1 && Path(p, key, seen, j);
        PathIsFound(p, key, seen, j);
      }
    }
  }

  lemma {:induction false} PathWider(p: Program, key: Key, small: set<Key>, large: set<Key>, n: nat)
    requires small <= large && Path(p, key, large, n)
    ensures Path(p, key, small, n)
    decreases n
  {
    if n > 0 {
      var m :| BaseEdge(p, key, m) && Path(p, m, large, n - 1);
      PathWider(p, m, small, large, n - 1);
    }
  }

  lemma {:induction false} FoundIsPath(p: Program, key: Key, seen: set<Key>) returns (n: nat)
    requires key in p.nodes && IsDataContract(p, key, seen)
    ensures Path(p, key, seen, n)
    decreases p.nodes.Keys - seen
  {
    var bases := p.nodes[key].bases;
    if i :| 0 <= i < |bases| && Lists(bases[i]) {
      LeafSpells(bases[i], Leaf(bases[i]).value);
      n := 0;
    } else {
      var i :| 0 <= i < |bases| && Leaf(bases[i]).Some? && Target(p, key, Leaf(bases[i]).value).Some?
               && Target(p, key, Leaf(bases[i]).value).value in p.nodes
               && IsDataContract(p, Target(p, key, Leaf(bases[i]).value).value, seen + {key});
      var m := Target(p, key, Leaf(bases[i]).value).value;
      var k := FoundIsPath(p, m, seen + {key});
      PathWider(p, m, seen, seen + {key}, k);
      TargetLeads(p, key, bases[i], m);
      assert BaseEdge(p, key, m);
      n := k + 1;
    }
  }

  /** The search answers plain reachability of a contract class through resolved base classes. */
  lemma DataContractIsReachable(p: Program, key: Key)
    requires key in p.nodes
    ensures IsDataContract(p, key, {}) <==> exists n: nat :: Path(p, key, {}, n)
  {
    if IsDataContract(p, key, {}) {
      var n := FoundIsPath(p, key, {});
      assert Path(p, key, {}, n);
    } else {
      forall n: nat ensures !Path(p, key, {}, n) {
        if Path(p, key, {}, n) { PathIsFound(p, key, {}, n); assert false; }
      }
    }
  }
}

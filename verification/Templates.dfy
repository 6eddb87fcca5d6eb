/**
 Container templates that inherit from one another, resolved along their chain
 of bases.
 */
module Templates {
  import opened Domain

  type TemplateId = string

  datatype Healthcheck = Healthcheck(path: string, port: int, interval: int, timeout: int, retries: int)

  /** A template file; fields a file leaves out are empty or None. */
  datatype File = File(
    id: TemplateId,
    version: int,
    parent: TemplateId,
    image: string,
    user: string,
    command: Option<seq<string>>,
    readOnly: Option<bool>,
    privileged: Option<bool>,
    publishPorts: Option<bool>,
    capDrop: Option<seq<string>>,
    memory: Option<int>,
    pids: Option<int>,
    health: Option<Healthcheck>,
    modules: Option<seq<string>>)

  type Files = map<TemplateId, File>

  datatype Container = Container(
    id: TemplateId,
    version: int,
    image: string,
    user: string,
    command: seq<string>,
    readOnly: bool,
    privileged: bool,
    publishPorts: bool,
    capDrop: seq<string>,
    memory: int,
    pids: int,
    health: Option<Healthcheck>,
    modules: seq<string>)

  datatype Resolution = Resolved(value: Container) | Missing(id: TemplateId) | Cyclic(id: TemplateId) | Invalid(id: TemplateId)

  predicate IdChar(ch: char, first: bool) {
    'a' <= ch <= 'z' || '0' <= ch <= '9' || (!first && (ch == '-' || ch == '_'))
  }

  predicate ValidId(id: TemplateId) {
    0 < |id| <= 128 && forall i :: 0 <= i < |id| ==> IdChar(id[i], i == 0)
  }

  predicate HealthOk(h: Healthcheck) {
    h.path != "" && h.port > 0 && h.interval > 0 && h.timeout > 0 && h.retries > 0
  }

  /** What every resolved container must satisfy. */
  predicate Acceptable(c: Container) {
    && ValidId(c.id) && c.version > 0 && c.image != ""
    && c.user != "" && !c.privileged && !c.publishPorts && c.readOnly
    && c.memory > 0 && c.pids > 0 && c.capDrop == ["ALL"]
    && (c.health.Some? ==> HealthOk(c.health.value))
  }

  function Blank(f: File): Container {
    Container(f.id, f.version, "", "", [], false, false, false, [], 0, 0, None, [])
  }

  function Or<T>(own: Option<T>, base: T): T {
    if own.Some? then own.value else base
  }

  function OrText(own: string, base: string): string {
    if own != "" then own else base
  }

  function Overlay(c: Container, f: File): Container {
    Container(c.id, c.version, OrText(f.image, c.image), OrText(f.user, c.user), Or(f.command, c.command),
              Or(f.readOnly, c.readOnly), Or(f.privileged, c.privileged), Or(f.publishPorts, c.publishPorts),
              Or(f.capDrop, c.capDrop), Or(f.memory, c.memory), Or(f.pids, c.pids),
              if f.health.Some? then f.health else c.health, Or(f.modules, c.modules))
  }

  function Checked(c: Container, id: TemplateId): Resolution {
    if Acceptable(c) then Resolved(c) else Invalid(id)
  }

  /** Resolves a template while those in `stack` are being resolved. */
  function Resolve(files: Files, id: TemplateId, stack: set<TemplateId>): Resolution
    decreases |files.Keys - stack|
  {
    if id !in files then Missing(id)
    else if id in stack then Cyclic(id)
    else
      var f := files[id];
      if f.parent == "" then Checked(Overlay(Blank(f), f), id)
      else
        SmallerRest(files.Keys, stack, id);
        var base := Resolve(files, f.parent, stack + {id});
        if !base.Resolved? then base
        else Checked(Overlay(base.value.(id := f.id, version := f.version), f), id)
  }

  lemma SmallerRest(all: set<TemplateId>, stack: set<TemplateId>, id: TemplateId)
    requires id in all && id !in stack
    ensures |all - (stack + {id})| < |all - stack|
  {
    var rest := all - (stack + {id});
    assert id !in rest;
    assert all - stack == rest + {id};
    assert |rest + {id}| == |rest| + 1;
  }

  // ----- Chains of inheritance ------------------------------------------------------------

  /** `chain` runs from a template through its bases to one that extends nothing. */
  predicate Chain(files: Files, id: TemplateId, chain: seq<TemplateId>)
    decreases |chain|
  {
    && chain != [] && chain[0] == id && id in files
    && if files[id].parent == "" then |chain| == 1 else Chain(files, files[id].parent, chain[1..])
  }

  /** The first templates of the walk from `id` along its bases. */
  predicate Path(files: Files, id: TemplateId, path: seq<TemplateId>)
    decreases |path|
  {
    && path != [] && path[0] == id
    && (|path| > 1 ==> id in files && files[id].parent != "" && Path(files, files[id].parent, path[1..]))
  }

  /** The container a chain describes: each template overlaid on what its bases describe. */
  function Described(files: Files, id: TemplateId, chain: seq<TemplateId>): Container
    requires Chain(files, id, chain)
    decreases |chain|
  {
    var f := files[id];
    if f.parent == "" then Overlay(Blank(f), f)
    else Overlay(Described(files, f.parent, chain[1..]).(id := f.id, version := f.version), f)
  }

  /** Every template on the chain describes an acceptable container. */
  predicate AllAcceptable(files: Files, id: TemplateId, chain: seq<TemplateId>)
    requires Chain(files, id, chain)
    decreases |chain|
  {
    && Acceptable(Described(files, id, chain))
    && (files[id].parent != "" ==> AllAcceptable(files, files[id].parent, chain[1..]))
  }

  lemma {:induction false} ChainIsUnique(files: Files, id: TemplateId, a: seq<TemplateId>, b: seq<TemplateId>)
    requires Chain(files, id, a) && Chain(files, id, b)
    ensures a == b
    decreases |a|
  {
    assert a == [a[0]] + a[1..] && b == [b[0]] + b[1..];
    if files[id].parent != "" {
      ChainIsUnique(files, files[id].parent, a[1..], b[1..]);
    }
  }

  lemma {:induction false} ChainTail(files: Files, id: TemplateId, chain: seq<TemplateId>, k: nat)
    requires Chain(files, id, chain) && k < |chain|
    ensures Chain(files, chain[k], chain[k..])
    decreases |chain|
  {
    if k == 0 {
      assert chain[0..] == chain;
    } else {
      ChainTail(files, files[id].parent, chain[1..], k - 1);
      assert chain[1..][k - 1..] == chain[k..];
    }
  }

  /** A chain visits no template twice. */
  lemma ChainHasNoCycle(files: Files, id: TemplateId, chain: seq<TemplateId>, i: nat, j: nat)
    requires Chain(files, id, chain) && i < j < |chain|
    ensures chain[i] != chain[j]
  {
    ChainTail(files, id, chain, i);
    ChainTail(files, id, chain, j);
    if chain[i] == chain[j] {
      ChainIsUnique(files, chain[i], chain[i..], chain[j..]);
    }
  }

  // ----- Resolution is what the chain describes ------------------------------------------------

  predicate Avoids(chain: seq<TemplateId>, stack: set<TemplateId>) {
    forall i :: 0 <= i < |chain| ==> chain[i] !in stack
  }

  /** Along a chain clear of the stack, resolution succeeds exactly if every template on it is acceptable. */
  lemma {:induction false} ResolveAlongChain(files: Files, id: TemplateId, stack: set<TemplateId>, chain: seq<TemplateId>)
    requires Chain(files, id, chain) && Avoids(chain, stack)
    ensures var r := Resolve(files, id, stack);
      if AllAcceptable(files, id, chain) then r == Resolved(Described(files, id, chain)) else r.Invalid? && r.id in chain
    decreases |chain|
  {
    assert chain[0] !in stack;
    if files[id].parent != "" {
      var rest := chain[1..];
      forall i | 0 <= i < |rest| ensures rest[i] !in stack + {id} {
        assert chain[i + 1] == rest[i];
        ChainHasNoCycle(files, id, chain, 0, i + 1);
      }
      ResolveAlongChain(files, files[id].parent, stack + {id}, rest);
    }
  }

  /** Where the walk from `id` breaks off: at a missing template, or back at one already visited. */
  ghost predicate BreaksOff(files: Files, id: TemplateId, stack: set<TemplateId>, r: Resolution)
    requires r.Missing? || r.Cyclic?
  {
    exists path: seq<TemplateId> ::
      && Path(files, id, path) && path[|path| - 1] == r.id
      && (r.Missing? ==> r.id !in files)
      && (r.Cyclic? ==> r.id in stack || r.id in path[..|path| - 1])
  }

  lemma {:induction false} ResolveExplains(files: Files, id: TemplateId, stack: set<TemplateId>)
    ensures var r := Resolve(files, id, stack);
      && (r.Missing? || r.Cyclic? ==> BreaksOff(files, id, stack, r))
      && (r.Resolved? || r.Invalid? ==> exists chain :: Chain(files, id, chain) && Avoids(chain, stack))
    decreases |files.Keys - stack|
  {
    var r := Resolve(files, id, stack);
    if id !in files || id in stack {
      assert Path(files, id, [id]) && [id][0] == id;
    } else if files[id].parent == "" {
      assert Chain(files, id, [id]) && Avoids([id], stack);
    } else {
      SmallerRest(files.Keys, stack, id);
      var next := files[id].parent;
      ResolveExplains(files, next, stack + {id});
      var base := Resolve(files, next, stack + {id});
      if base.Missing? || base.Cyclic? {
        LongerWalk(files, id, stack, base);
      } else {
        var rest :| Chain(files, next, rest) && Avoids(rest, stack + {id});
        var chain := [id] + rest;
        assert chain[1..] == rest;
        assert Avoids(chain, stack);
      }
    }
  }

  lemma LongerWalk(files: Files, id: TemplateId, stack: set<TemplateId>, r: Resolution)
    requires id in files && files[id].parent != "" && (r.Missing? || r.Cyclic?)
    requires BreaksOff(files, files[id].parent, stack + {id}, r)
    ensures BreaksOff(files, id, stack, r)
  {
    var rest :| Path(files, files[id].parent, rest) && rest[|rest| - 1] == r.id
                && (r.Missing? ==> r.id !in files) && (r.Cyclic? ==> r.id in stack + {id} || r.id in rest[..|rest| - 1]);
    var path := [id] + rest;
    assert path[1..] == rest && path[|path| - 1] == r.id;
    assert path[..|path| - 1] == [id] + rest[..|rest| - 1];
  }

  /** A template resolves if and only if its chain of bases exists, which is then free of cycles, and every
      template on it describes an acceptable container; the result is what the chain describes. */
  lemma ResolvesIff(files: Files, id: TemplateId, c: Container)
    ensures Resolve(files, id, {}) == Resolved(c)
       <==> exists chain :: Chain(files, id, chain) && AllAcceptable(files, id, chain) && Described(files, id, chain) == c
  {
    ResolveExplains(files, id, {});
    if Resolve(files, id, {}).Resolved? {
      var chain :| Chain(files, id, chain) && Avoids(chain, {});
      ResolveAlongChain(files, id, {}, chain);
    }
    forall chain | Chain(files, id, chain) && AllAcceptable(files, id, chain) && Described(files, id, chain) == c
      ensures Resolve(files, id, {}) == Resolved(c)
    {
      assert Avoids(chain, {});
      ResolveAlongChain(files, id, {}, chain);
    }
  }

  /** Each failure names its cause: a base that does not exist, a template visited twice, or a
      template on a complete chain that describes an unacceptable container. */
  lemma FailuresAreExplained(files: Files, id: TemplateId)
    ensures var r := Resolve(files, id, {});
      && (r.Missing? || r.Cyclic? ==> BreaksOff(files, id, {}, r) && !exists chain :: Chain(files, id, chain))
      && (r.Invalid? ==> exists chain :: Chain(files, id, chain) && !AllAcceptable(files, id, chain) && r.id in chain)
  {
    var r := Resolve(files, id, {});
    ResolveExplains(files, id, {});
    if r.Invalid? {
      var chain :| Chain(files, id, chain) && Avoids(chain, {});
      ResolveAlongChain(files, id, {}, chain);
    }
    forall chain | Chain(files, id, chain) && (r.Missing? || r.Cyclic?) ensures false {
      assert Avoids(chain, {});
      ResolveAlongChain(files, id, {}, chain);
    }
  }

  // ----- Every field comes from the nearest template that sets it ------------------------------

  /** The value of a field in the first template on the chain that sets it. */
  function Nearest<T>(files: Files, chain: seq<TemplateId>, field: File -> Option<T>): Option<T> {
    if chain == [] then None
    else if chain[0] in files && field(files[chain[0]]).Some? then field(files[chain[0]])
    else Nearest(files, chain[1..], field)
  }

  function Text(s: string): Option<string> {
    if s == "" then None else Some(s)
  }

  function Image(f: File): Option<string> { Text(f.image) }
  function User(f: File): Option<string> { Text(f.user) }
  function Command(f: File): Option<seq<string>> { f.command }
  function ReadOnly(f: File): Option<bool> { f.readOnly }
  function Privileged(f: File): Option<bool> { f.privileged }
  function PublishPorts(f: File): Option<bool> { f.publishPorts }
  function CapDrop(f: File): Option<seq<string>> { f.capDrop }
  function Memory(f: File): Option<int> { f.memory }
  function Pids(f: File): Option<int> { f.pids }
  function Health(f: File): Option<Healthcheck> { f.health }
  function Modules(f: File): Option<seq<string>> { f.modules }

  predicate Inherits(files: Files, chain: seq<TemplateId>, c: Container) {
    && c.image == Or(Nearest(files, chain, Image), "")
    && c.user == Or(Nearest(files, chain, User), "")
    && c.command == Or(Nearest(files, chain, Command), [])
    && c.readOnly == Or(Nearest(files, chain, ReadOnly), false)
    && c.privileged == Or(Nearest(files, chain, Privileged), false)
    && c.publishPorts == Or(Nearest(files, chain, PublishPorts), false)
    && c.capDrop == Or(Nearest(files, chain, CapDrop), [])
    && c.memory == Or(Nearest(files, chain, Memory), 0)
    && c.pids == Or(Nearest(files, chain, Pids), 0)
    && c.health == Nearest(files, chain, Health)
    && c.modules == Or(Nearest(files, chain, Modules), [])
  }

  /** Overlaying one more template keeps every field the nearest one set. */
  lemma OverlayInherits(files: Files, chain: seq<TemplateId>, base: Container, f: File)
    requires chain != [] && chain[0] in files && files[chain[0]] == f && Inherits(files, chain[1..], base)
    ensures Inherits(files, chain, Overlay(base, f))
  {}

  lemma {:induction false} DescribedInherits(files: Files, id: TemplateId, chain: seq<TemplateId>)
    requires Chain(files, id, chain)
    ensures var c := Described(files, id, chain);
      c.id == files[id].id && c.version == files[id].version && Inherits(files, chain, c)
    decreases |chain|
  {
    var f := files[id];
    if f.parent == "" {
      assert chain[1..] == [];
      OverlayInherits(files, chain, Blank(f), f);
    } else {
      DescribedInherits(files, f.parent, chain[1..]);
      var base := Described(files, f.parent, chain[1..]).(id := f.id, version := f.version);
      OverlayInherits(files, chain, base, f);
    }
  }

  /** A resolved container is acceptable, keeps its own identity, and takes every other field from
      the nearest template on its chain that sets it. */
  lemma ResolvedInherits(files: Files, id: TemplateId, chain: seq<TemplateId>)
    requires Chain(files, id, chain) && Resolve(files, id, {}).Resolved?
    ensures var c := Resolve(files, id, {}).value;
      Acceptable(c) && c.id == files[id].id && c.version == files[id].version && Inherits(files, chain, c)
  {
    assert Avoids(chain, {});
    ResolveAlongChain(files, id, {}, chain);
    DescribedInherits(files, id, chain);
  }

  // ----- The resolver ------------------------------------------------------------------------------

  /** The templates being resolved, shared by the recursive calls. */
  class Stack {
    var ids: set<TemplateId>

    constructor ()
      ensures ids == {}
    {
      ids := {};
    }
  }

  method ResolveContainer(id: TemplateId, files: Files, stack: Stack) returns (r: Resolution)
    modifies stack
    ensures stack.ids == old(stack.ids)
    ensures r == Resolve(files, id, old(stack.ids))
    decreases |files.Keys - stack.ids|
  {
    if id !in files {
      return Missing(id);
    }
    if id in stack.ids {
      return Cyclic(id);
    }
    SmallerRest(files.Keys, stack.ids, id);
    ghost var before := stack.ids;
    stack.ids := stack.ids + {id};
    var f := files[id];
    var base := Resolved(Blank(f));
    if f.parent != "" {
      base := ResolveContainer(f.parent, files, stack);
    }
    stack.ids := stack.ids - {id};
    assert stack.ids == before;
    if !base.Resolved? {
      return base;
    }
    var result := Overlay(base.value.(id := f.id, version := f.version), f);
    if !Acceptable(result) {
      return Invalid(id);
    }
    return Resolved(result);
  }
}

/**
 Per-lab gateway fragments: written to disk, validated, reloaded, and rolled back.
 */
module NginxManager {
  import opened Domain

  datatype Upstream = Upstream(name: Name, host: string, port: int, weight: int)

  /** Rendering sorts the servers, so a fragment is identified by which servers it lists. */
  type Fragment = multiset<Upstream>
  type Fragments = map<LabId, Fragment>

  /** The fragment files, and the fragments the gateway last loaded. */
  datatype Gateway = Gateway(files: Fragments, running: Fragments)

  /** Finding the gateway, testing its configuration and reloading it. */
  datatype Attempt = NoGateway | TestFails | ReloadFails | Reloads

  /** How the file system and the gateway behave during one call. */
  datatype Luck = Luck(readable: bool, written: bool, attempt: Attempt, restored: bool, rollback: Attempt)

  predicate LabChar(ch: char, first: bool) {
    'a' <= ch <= 'z' || '0' <= ch <= '9' || (!first && ch == '-')
  }

  predicate ValidLabId(lab: LabId) {
    4 <= |lab| <= 64 && forall i :: 0 <= i < |lab| ==> LabChar(lab[i], i == 0)
  }

  predicate ValidInstanceName(n: Name) {
    5 <= |n| <= 16 && n[..4] == "app-" && forall i :: 4 <= i < |n| ==> '0' <= n[i] <= '9'
  }

  predicate HostChar(ch: char, first: bool) {
    'a' <= ch <= 'z' || '0' <= ch <= '9' || (!first && (ch == '-' || ch == '.'))
  }

  predicate ValidHost(host: string) {
    0 < |host| <= 128 && forall i :: 0 <= i < |host| ==> HostChar(host[i], i == 0)
  }

  predicate ValidUpstream(s: Upstream) {
    ValidInstanceName(s.name) && ValidHost(s.host) && 0 < s.port <= 65535 && s.weight > 0
  }

  predicate ValidUpstreams(servers: seq<Upstream>) {
    forall i :: 0 <= i < |servers| ==> ValidUpstream(servers[i])
  }

  datatype Call = ApplyCall(lab: LabId, servers: seq<Upstream>, luck: Luck) | RemoveCall(lab: LabId, luck: Luck)

  function Reloaded(g: Gateway, attempt: Attempt): Gateway {
    if attempt == Reloads then g.(running := g.files) else g
  }

  function Restored(files: Fragments, before: Fragments, lab: LabId): Fragments {
    if lab in before then files[lab := before[lab]] else map l | l in files && l != lab :: files[l]
  }

  function Applied(g: Gateway, lab: LabId, servers: seq<Upstream>, luck: Luck): (Gateway, bool) {
    if !ValidLabId(lab) || servers == [] || !ValidUpstreams(servers) || !luck.readable || !luck.written then (g, false)
    else
      var written := g.(files := g.files[lab := multiset(servers)]);
      if luck.attempt == Reloads then (Reloaded(written, Reloads), true)
      else if !luck.restored then (written, false)
      else
        var back := written.(files := Restored(written.files, g.files, lab));
        (if lab in g.files then Reloaded(back, luck.rollback) else back, false)
  }

  function Dropped(g: Gateway, lab: LabId, luck: Luck): (Gateway, bool) {
    if !ValidLabId(lab) then (g, false)
    else if luck.readable && lab !in g.files then (g, true)
    else if !luck.readable || !luck.written then (g, false)
    else
      var removed := g.(files := map l | l in g.files && l != lab :: g.files[l]);
      if luck.attempt == Reloads then (Reloaded(removed, Reloads), true)
      else if !luck.restored then (removed, false)
      else (removed.(files := removed.files[lab := g.files[lab]]), false)
  }

  function Step(g: Gateway, call: Call): (Gateway, bool) {
    match call
    case ApplyCall(lab, servers, luck) => Applied(g, lab, servers, luck)
    case RemoveCall(lab, luck) => Dropped(g, lab, luck)
  }

  function After(g: Gateway, run: seq<Call>): Gateway {
    if run == [] then g else Step(After(g, run[..|run| - 1]), run[|run| - 1]).0
  }

  // ----- Guarantees of one call ---------------------------------------------------------

  /** The call gets as far as changing the lab's file. */
  predicate Touches(g: Gateway, call: Call) {
    && ValidLabId(call.lab) && call.luck.readable && call.luck.written
    && match call
       case ApplyCall(_, servers, _) => servers != [] && ValidUpstreams(servers)
       case RemoveCall(lab, _) => lab in g.files
  }

  /** The call changes the file, the gateway does not take it, and the file cannot be put back. */
  predicate Strands(g: Gateway, call: Call) {
    && Touches(g, call) && call.luck.attempt != Reloads && !call.luck.restored
    && (call.ApplyCall? ==> call.lab !in g.files || g.files[call.lab] != multiset(call.servers))
  }

  /** Where gateway and files agree, they agree after the call exactly unless the call strands its file. */
  lemma CallKeepsAgreement(g: Gateway, call: Call)
    requires g.running == g.files
    ensures var after := Step(g, call).0; after.running == after.files <==> !Strands(g, call)
  {
    var after, lab := Step(g, call).0, call.lab;
    if Touches(g, call) && call.luck.attempt != Reloads {
      if call.luck.restored {
        assert after.files == g.files;
      } else if call.ApplyCall? {
        assert after.files[lab] == multiset(call.servers);
        assert !Strands(g, call) ==> after.files == g.files;
      } else {
        assert lab !in after.files && lab in after.running;
      }
    }
  }

  /** A successful call that changed a file leaves gateway and files in agreement, whatever was before. */
  lemma SuccessHeals(g: Gateway, call: Call)
    requires Touches(g, call) && Step(g, call).1
    ensures var after := Step(g, call).0;
      && after.running == after.files
      && (if call.ApplyCall? then call.lab in after.running && after.running[call.lab] == multiset(call.servers)
          else call.lab !in after.running)
  {}

  /** A failed call leaves the lab's file as it was, provided the file can be put back. */
  lemma FailureRestores(g: Gateway, call: Call)
    requires !Step(g, call).1 && call.luck.restored
    ensures Step(g, call).0.files == g.files
  {
    var after := Step(g, call).0.files;
    assert forall l :: l in after <==> l in g.files;
    assert forall l :: l in after ==> after[l] == g.files[l];
  }

  /** No call changes another lab's file, nor, from agreement, what the gateway serves for it. */
  lemma OthersUntouched(g: Gateway, call: Call, other: LabId)
    requires other != call.lab
    ensures var after := Step(g, call).0;
      && (other in after.files <==> other in g.files) && (other in g.files ==> after.files[other] == g.files[other])
      && (g.running == g.files ==>
            (other in after.running <==> other in g.running) && (other in g.running ==> after.running[other] == g.running[other]))
  {}

  // ----- Sequences of calls -------------------------------------------------------------------

  predicate AlwaysRestores(run: seq<Call>) {
    forall k :: 0 <= k < |run| ==> run[k].luck.restored
  }

  /** While files can be put back, the gateway serves exactly the files on disk after every call. */
  lemma {:induction false} GatewayServesFiles(g: Gateway, run: seq<Call>)
    requires g.running == g.files && AlwaysRestores(run)
    ensures After(g, run).running == After(g, run).files
  {
    if run != [] {
      GatewayServesFiles(g, run[..|run| - 1]);
      CallKeepsAgreement(After(g, run[..|run| - 1]), run[|run| - 1]);
    }
  }

  /** What a lab's fragment should be: set by its last successful Apply, absent after its last successful Remove. */
  function Expected(g: Gateway, run: seq<Call>, lab: LabId): Option<Fragment> {
    if run == [] then if lab in g.files then Some(g.files[lab]) else None
    else
      var front, call := run[..|run| - 1], run[|run| - 1];
      if call.lab != lab || !Step(After(g, front), call).1 then Expected(g, front, lab)
      else if call.ApplyCall? then Some(multiset(call.servers))
      else None
  }

  /** A lab is served exactly what its last successful call asked for. */
  lemma {:induction false} LastSuccessIsServed(g: Gateway, run: seq<Call>, lab: LabId)
    requires g.running == g.files && AlwaysRestores(run)
    ensures var served := After(g, run).running;
      Expected(g, run, lab) == if lab in served then Some(served[lab]) else None
  {
    GatewayServesFiles(g, run);
    if run != [] {
      var front, call := run[..|run| - 1], run[|run| - 1];
      var before := After(g, front);
      LastSuccessIsServed(g, front, lab);
      GatewayServesFiles(g, front);
      if call.lab != lab {
        OthersUntouched(before, call, lab);
      } else if !Step(before, call).1 {
        FailureRestores(before, call);
      }
    }
  }

  // ----- The manager ---------------------------------------------------------------------------

  class Manager {
    var files: Fragments
    var running: Fragments

    constructor ()
      ensures Contents() == Gateway(map[], map[])
    {
      files, running := map[], map[];
    }

    function Contents(): Gateway
      reads this
    {
      Gateway(files, running)
    }

    method ValidateAndReload(attempt: Attempt) returns (ok: bool)
      modifies this`running
      ensures Contents() == Reloaded(old(Contents()), attempt) && ok == (attempt == Reloads)
    {
      match attempt {
        case NoGateway => return false;
        case TestFails => return false;
        case ReloadFails => return false;
        case Reloads =>
          running := files;
          return true;
      }
    }

    method ValidateServers(servers: seq<Upstream>) returns (valid: bool)
      ensures valid == ValidUpstreams(servers)
    {
      for i := 0 to |servers|
        invariant forall k :: 0 <= k < i ==> ValidUpstream(servers[k])
      {
        var s := servers[i];
        if !ValidInstanceName(s.name) || !ValidHost(s.host) || s.port <= 0 || s.port > 65535 || s.weight <= 0 {
          assert !ValidUpstream(servers[i]);
          return false;
        }
      }
      return true;
    }

    method Apply(lab: LabId, servers: seq<Upstream>, luck: Luck) returns (ok: bool)
      modifies this
      ensures (Contents(), ok) == Applied(old(Contents()), lab, servers, luck)
    {
      if !ValidLabId(lab) || |servers| == 0 {
        return false;
      }
      var valid := ValidateServers(servers);
      if !valid || !luck.readable {
        return false;
      }
      var existed := lab in files;
      var previous := if existed then files[lab] else multiset{};
      if !luck.written {
        return false;
      }
      files := files[lab := multiset(servers)];
      ok := ValidateAndReload(luck.attempt);
      if !ok && luck.restored {
        RestoreFile(lab, previous, existed);
        if existed {
          var _ := ValidateAndReload(luck.rollback);
        }
      }
    }

    method RestoreFile(lab: LabId, previous: Fragment, existed: bool)
      modifies this`files
      ensures files == if existed then old(files)[lab := previous] else map l | l in old(files) && l != lab :: old(files)[l]
    {
      if existed {
        files := files[lab := previous];
      } else {
        files := map l | l in files && l != lab :: files[l];
      }
    }

    method Remove(lab: LabId, luck: Luck) returns (ok: bool)
      modifies this
      ensures (Contents(), ok) == Dropped(old(Contents()), lab, luck)
    {
      if !ValidLabId(lab) {
        return false;
      }
      if luck.readable && lab !in files {
        return true;
      }
      if !luck.readable || !luck.written {
        return false;
      }
      var previous := files[lab];
      files := map l | l in files && l != lab :: files[l];
      ok := ValidateAndReload(luck.attempt);
      if !ok && luck.restored {
        files := files[lab := previous];
      }
    }
  }
}

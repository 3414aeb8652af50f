/** internal/state: the remembered frontend ports and the file that holds them. A
    write either replaces the whole file or leaves it alone; which of the two
    happens is the `writeOk` argument of every saving operation. */
module Store {
  import opened Types

  const VERSION: int := 1

  type Ports = map<Name, int>

  /** The state file as a reader can find it. */
  datatype File =
    | Missing
    | Unreadable
    | Empty
    | Corrupt
    | Doc(version: int, ports: Option<Ports>)

  datatype Model = Model(version: int, ports: Ports)

  datatype LoadError = ReadFailed | BackupFailed | FutureVersion

  /** What Load makes of a file; `backupOk` tells whether a corrupt one could be
      copied aside. */
  function Loaded(f: File, backupOk: bool): Result<Model, LoadError> {
    match f
    case Missing => Ok(Model(VERSION, map[]))
    case Unreadable => Err(ReadFailed)
    case Empty => Ok(Model(VERSION, map[]))
    case Corrupt => if backupOk then Ok(Model(VERSION, map[])) else Err(BackupFailed)
    case Doc(v, ports) =>
      if v > VERSION then Err(FutureVersion)
      else Ok(Model(if v == 0 then VERSION else v, if ports.Some? then ports.value else map[]))
  }

  /** The store in memory, together with the file behind it. */
  datatype State = State(mem: Model, dirty: bool, file: File)

  function Remembered(s: State, name: Name): int {
    if name in s.mem.ports then s.mem.ports[name] else 0
  }

  function Saved(s: State, writeOk: bool): State {
    if writeOk then s.(file := Doc(s.mem.version, Some(s.mem.ports)), dirty := false)
    else s.(dirty := true)
  }

  /** State after SetPort, and whether it returned nil. */
  function PortSet(s: State, name: Name, port: int, writeOk: bool): (State, bool) {
    if Remembered(s, name) == port && !s.dirty then (s, true)
    else (Saved(s.(mem := s.mem.(ports := s.mem.ports[name := port])), writeOk), writeOk)
  }

  function Forgotten(s: State, name: Name, writeOk: bool): (State, bool) {
    if name !in s.mem.ports && !s.dirty then (s, true)
    else (Saved(s.(mem := s.mem.(ports := s.mem.ports - {name})), writeOk), writeOk)
  }

  /** Save leaves the dirty flag as it was when the write fails. */
  function Flushed(s: State, writeOk: bool): State {
    if writeOk then Saved(s, true) else s
  }

  /** Reading the file back gives the memory contents. */
  predicate Durable(s: State) { Loaded(s.file, true) == Ok(s.mem) }

  ghost predicate Sound(s: State) {
    s.mem.version <= VERSION && s.mem.version != 0 && (!s.dirty ==> Durable(s))
  }

  class Store {
    var mem: Model
    var dirty: bool
    var file: File

    ghost function View(): State reads this { State(mem, dirty, file) }

    /** Load of a file that Load accepts. */
    constructor (file: File, backupOk: bool)
      requires Loaded(file, backupOk).Ok?
      ensures View() == State(Loaded(file, backupOk).value, false, file)
    {
      this.mem := Loaded(file, backupOk).value;
      this.dirty := false;
      this.file := file;
    }

    method Port(name: Name) returns (p: int)
      ensures p == Remembered(View(), name)
    {
      p := if name in mem.ports then mem.ports[name] else 0;
    }

    method SaveLocked(writeOk: bool) returns (ok: bool)
      modifies this`file
      ensures ok == writeOk && file == if writeOk then Doc(mem.version, Some(mem.ports)) else old(file)
    {
      if writeOk {
        file := Doc(mem.version, Some(mem.ports));
      }
      ok := writeOk;
    }

    method SetPort(name: Name, port: int, writeOk: bool) returns (ok: bool)
      modifies this
      ensures (View(), ok) == PortSet(old(View()), name, port, writeOk)
      ensures old(Sound(View())) ==> Sound(View()) && (ok ==> Durable(View()) && Remembered(View(), name) == port)
    {
      var current := Port(name);
      if current == port && !dirty {
        return true;
      }
      mem := mem.(ports := mem.ports[name := port]);
      dirty := true;
      ok := SaveLocked(writeOk);
      if ok {
        dirty := false;
      }
    }

    method Forget(name: Name, writeOk: bool) returns (ok: bool)
      modifies this
      ensures (View(), ok) == Forgotten(old(View()), name, writeOk)
      ensures old(Sound(View())) ==> Sound(View()) && (ok ==> Durable(View()) && name !in mem.ports)
    {
      if name !in mem.ports && !dirty {
        return true;
      }
      mem := mem.(ports := mem.ports - {name});
      dirty := true;
      ok := SaveLocked(writeOk);
      if ok {
        dirty := false;
      }
    }

    method Save(writeOk: bool) returns (ok: bool)
      modifies this
      ensures View() == Flushed(old(View()), writeOk) && ok == writeOk && (!ok ==> View() == old(View()))
      ensures old(Sound(View())) ==> Sound(View()) && (ok ==> Durable(View()))
    {
      ok := SaveLocked(writeOk);
      if ok {
        dirty := false;
      }
    }
  }

  // ----- What Load makes of each kind of file -----

  /** A document of version 1 or below loads with exactly its ports, and keeps its version
      unless that is 0, which becomes 1. */
  lemma DocumentLoads(v: int, ports: Option<Ports>, backupOk: bool, n: Name)
    requires v <= 1
    ensures var r := Loaded(Doc(v, ports), backupOk);
      && r.Ok? && r.value.version == (if v == 0 then 1 else v)
      && (n in r.value.ports <==> ports.Some? && n in ports.value)
      && (n in r.value.ports ==> r.value.ports[n] == ports.value[n])
  {}

  /** A document of a later version and a file that cannot be read are refused; a missing
      or empty file loads as version 1 without ports; so does a corrupt one, if and only if
      it could be copied aside. */
  lemma OtherFilesLoad(v: int, ports: Option<Ports>, backupOk: bool)
    ensures v > 1 ==> Loaded(Doc(v, ports), backupOk) == Err(FutureVersion)
    ensures Loaded(Unreadable, backupOk) == Err(ReadFailed)
    ensures Loaded(Missing, backupOk) == Loaded(Empty, backupOk) == Ok(Model(1, map[]))
    ensures Loaded(Corrupt, backupOk) == if backupOk then Ok(Model(1, map[])) else Err(BackupFailed)
  {}

  /** What the store writes is read back as it was, by a daemon of this version. */
  lemma WrittenIsReadBack(s: State, backupOk: bool)
    requires Sound(s)
    ensures Saved(s, true).file == Doc(s.mem.version, Some(s.mem.ports))
    ensures Loaded(Saved(s, true).file, backupOk) == Ok(s.mem)
  {}

  // ----- Whole histories -----

  datatype Op =
    | Set(name: Name, port: int, writeOk: bool)
    | Drop(name: Name, writeOk: bool)
    | Flush(writeOk: bool)

  /** State and nil-ness of the result of one call. */
  function Do(s: State, op: Op): (State, bool) {
    match op
    case Set(name, port, ok) => PortSet(s, name, port, ok)
    case Drop(name, ok) => Forgotten(s, name, ok)
    case Flush(ok) => (Flushed(s, ok), ok)
  }

  function DoAll(s: State, ops: seq<Op>): State {
    if ops == [] then s else Do(DoAll(s, ops[..|ops| - 1]), ops[|ops| - 1]).0
  }

  /** The port map the calls ask for, ignoring the disk altogether. */
  function Wanted(ports: Ports, ops: seq<Op>): Ports {
    if ops == [] then ports else
    var before := Wanted(ports, ops[..|ops| - 1]);
    match ops[|ops| - 1]
    case Set(name, port, _) => before[name := port]
    case Drop(name, _) => before - {name}
    case Flush(_) => before
  }

  /** The one call that can return nil and record nothing: port 0 for a name the clean
      store does not know. */
  predicate Silent(s: State, name: Name, port: int) { port == 0 && name !in s.mem.ports && !s.dirty }

  /** A nil result of SetPort leaves the assignment recorded, in memory and on disk, if
      and only if the call was not that one. */
  lemma RecordedIffNotSilent(s: State, name: Name, port: int, writeOk: bool)
    requires Sound(s) && PortSet(s, name, port, writeOk).1
    ensures var s' := PortSet(s, name, port, writeOk).0;
      && Durable(s') && Remembered(s', name) == port
      && (name in s'.mem.ports && s'.mem.ports[name] == port <==> !Silent(s, name, port))
  {}

  /** Such a call on a store just loaded from nothing. */
  lemma ZeroPortNotRecorded(name: Name, writeOk: bool)
    ensures var s := State(Model(VERSION, map[]), false, Missing);
      Sound(s) && PortSet(s, name, 0, writeOk) == (s, true) && name !in s.mem.ports
  {}

  /** What Port answers for a map of assignments. */
  function PortIn(ports: Ports, name: Name): int { if name in ports then ports[name] else 0 }

  /** From any file Load accepts, for all calls and under any pattern of failed writes:
      Port answers what the calls asked for, and whenever a call returns nil a restart
      reads the whole memory back, including assignments whose own write had failed. */
  lemma {:induction false} NilMeansDurable(f: File, backupOk: bool, ops: seq<Op>, n: Name)
    requires Loaded(f, backupOk).Ok?
    ensures var s0 := State(Loaded(f, backupOk).value, false, f);
      var s := DoAll(s0, ops);
      && Sound(s) && Remembered(s, n) == PortIn(Wanted(s0.mem.ports, ops), n)
      && (ops != [] && Do(DoAll(s0, ops[..|ops| - 1]), ops[|ops| - 1]).1 ==> Loaded(s.file, true) == Ok(s.mem))
  {
    if ops != [] {
      NilMeansDurable(f, backupOk, ops[..|ops| - 1], n);
    }
  }

  /** No call of the history is silent when it is made. */
  predicate NeverSilent(s: State, ops: seq<Op>) {
    ops == [] ||
    var l := ops[|ops| - 1];
    NeverSilent(s, ops[..|ops| - 1]) && (l.Set? ==> !Silent(DoAll(s, ops[..|ops| - 1]), l.name, l.port))
  }

  /** Without silent calls memory holds exactly the map that was asked for. */
  lemma {:induction false} RecordsExactly(s: State, ops: seq<Op>)
    requires NeverSilent(s, ops)
    ensures DoAll(s, ops).mem.ports == Wanted(s.mem.ports, ops)
  {
    if ops != [] {
      RecordsExactly(s, ops[..|ops| - 1]);
      var v := DoAll(s, ops[..|ops| - 1]);
      match ops[|ops| - 1] {
        case Set(name, port, _) =>
          if Remembered(v, name) == port && !v.dirty {
            assert v.mem.ports[name := port] == v.mem.ports;
          }
        case Drop(name, _) =>
          if name !in v.mem.ports {
            assert v.mem.ports - {name} == v.mem.ports;
          }
        case Flush(_) =>
      }
    }
  }
}

/**
 * The messenger registry: a process-wide table from a service name ("slack",
 * "discord") to the chat-messenger class that serves it. Classes enter the table
 * through the `register(name)` decorator; `initialize_messenger` looks a name up
 * and constructs the class it finds.
 */
module Messengers {
  import opened Wrappers

  /** A Python class as the registry sees it: its name, and whether it subclasses `ChatMessenger`. */
  datatype MessengerClass = MessengerClass(name: string, subclassesChatMessenger: bool)

  /** The exceptions `register` raises. */
  datatype RegistryError = TypeError(message: string) | ValueError(message: string)

  /** A messenger instance: `ChatMessenger.__init__` keeps the configuration and the bot. */
  datatype Instance<C, B> = Instance(cls: MessengerClass, config: C, rengabot: B)

  type Table = map<string, MessengerClass>

  /** Every class in the table subclasses `ChatMessenger`. */
  predicate OnlyMessengers(table: Table)
  {
    forall n :: n in table ==> table[n].subclassesChatMessenger
  }

  /** `after` keeps every entry of `before`: entries are only ever added. */
  predicate Extends(before: Table, after: Table)
  {
    forall n :: n in before ==> n in after && after[n] == before[n]
  }

  /**
   * `register(name)(cls)`: a class that does not subclass `ChatMessenger` raises
   * `TypeError`, checked first; a name already taken raises `ValueError`; otherwise
   * the class is stored under the name and returned unchanged.
   */
  function Registration(table: Table, name: string, cls: MessengerClass): (out: (Result<MessengerClass, RegistryError>, Table))
    ensures !cls.subclassesChatMessenger ==>
              out == (Err(TypeError(cls.name + " must subclass ChatMessenger")), table)
    ensures cls.subclassesChatMessenger && name in table ==>
              out == (Err(ValueError("Model name '" + name + "' already registered")), table)
    ensures out.0.Ok? <==> cls.subclassesChatMessenger && name !in table
    ensures out.0.Ok? ==> out.0.value == cls && out.1 == table[name := cls]
  {
    if !cls.subclassesChatMessenger then (Err(TypeError(cls.name + " must subclass ChatMessenger")), table)
    else if name in table then (Err(ValueError("Model name '" + name + "' already registered")), table)
    else (Ok(cls), table[name := cls])
  }

  /** A registration changes only its own name's entry, never overwrites, and admits only messengers. */
  lemma RegistrationIsInsertOnly(table: Table, name: string, cls: MessengerClass)
    ensures Extends(table, Registration(table, name, cls).1)
    ensures forall n :: n != name ==>
              (n in Registration(table, name, cls).1 <==> n in table)
    ensures OnlyMessengers(table) ==> OnlyMessengers(Registration(table, name, cls).1)
  {
  }

  /** The table after a series of `register` applications, in order, each one's failure ignored. */
  function RegisterAll(table: Table, regs: seq<(string, MessengerClass)>): Table
    decreases |regs|
  {
    if regs == [] then table
    else RegisterAll(Registration(table, regs[0].0, regs[0].1).1, regs[1..])
  }

  /** Entries survive any later registrations, and the table never admits a non-messenger. */
  lemma {:induction false} RegisterAllExtends(table: Table, regs: seq<(string, MessengerClass)>)
    ensures Extends(table, RegisterAll(table, regs))
    ensures OnlyMessengers(table) ==> OnlyMessengers(RegisterAll(table, regs))
    decreases |regs|
  {
    if regs != [] {
      var next := Registration(table, regs[0].0, regs[0].1).1;
      RegistrationIsInsertOnly(table, regs[0].0, regs[0].1);
      RegisterAllExtends(next, regs[1..]);
    }
  }

  /** The first successful registration of a name decides its class for good. */
  lemma {:induction false} FirstRegistrationWins(
    table: Table, name: string, cls: MessengerClass, later: seq<(string, MessengerClass)>)
    requires Registration(table, name, cls).0.Ok?
    ensures var t := RegisterAll(Registration(table, name, cls).1, later);
            name in t && t[name] == cls
  {
    RegisterAllExtends(Registration(table, name, cls).1, later);
  }

  /** The module-level `_REGISTRY` dictionary, changed in place by registrations. */
  class Registry {
    var table: Table

    constructor ()
      ensures table == map[]
    {
      table := map[];
    }

    /** `register(name)` applied to `cls`. */
    method Register(name: string, cls: MessengerClass) returns (r: Result<MessengerClass, RegistryError>)
      modifies this
      ensures (r, table) == Registration(old(table), name, cls)
      ensures Extends(old(table), table)
      ensures OnlyMessengers(old(table)) ==> OnlyMessengers(table)
    {
      RegistrationIsInsertOnly(table, name, cls);
      if !cls.subclassesChatMessenger {
        return Err(TypeError(cls.name + " must subclass ChatMessenger"));
      }
      if name in table {
        return Err(ValueError("Model name '" + name + "' already registered"));
      }
      table := table[name := cls];
      return Ok(cls);
    }

    /**
     * `initialize_messenger`: a registered name yields an instance of its class built from
     * `(config, rengabot)`; an unregistered name yields `None` and builds nothing.
     */
    method InitializeMessenger<C, B>(service: string, config: C, rengabot: B) returns (r: Option<Instance<C, B>>)
      ensures r.Some? <==> service in table
      ensures r.Some? ==> r.value == Instance(table[service], config, rengabot)
      ensures OnlyMessengers(table) && r.Some? ==> r.value.cls.subclassesChatMessenger
    {
      if service in table {
        var cls := table[service];
        return Some(Instance(cls, config, rengabot));
      }
      return None;
    }
  }
}

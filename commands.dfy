/** The three commands `asm`, `dis` and `exe`: the order in which each one
    checks its inputs and the calls it then makes to the emulation core.
    The core itself (Processor, assemble, disassemble, retrieve, execute,
    print_messages) is not modelled; each call to it is recorded as a Call,
    and the results the commands branch on are inputs. */
module Commands {
  import opened Outcomes
  import opened PyValues
  import opened Config
  import opened Checks

  datatype MessageKind = Exec | Blank | Acc | Carry

  /** The memory image handed to `execute`: the 'rom' tag (after assembling)
      or the image `retrieve` produced. */
  datatype Memory = RomTag | RetrievedImage

  datatype Call =
    | NewProcessor
    | Assemble(input: Value, output: Value, quiet: Value, types: Value)
    | PrintMessage(quiet: Value, kind: MessageKind)
    | Execute(memory: Memory, monitor: Value, quiet: Value)
    | Retrieve(objectFile: Value, quiet: Value)
    | Disassemble(inst: Value, labels: Value)

  /** The calls a command made, and the failure it ended with, if any. */
  datatype Outcome = Outcome(trace: seq<Call>, failure: Option<Error>)

  /** The kind of message a call prints, if it prints one. */
  function MessageOf(c: Call): seq<MessageKind>
  {
    if c.PrintMessage? then [c.kind] else []
  }

  /** The kinds of the messages printed, in order. */
  function Messages(trace: seq<Call>): seq<MessageKind>
  {
    if trace == [] then [] else MessageOf(trace[0]) + Messages(trace[1..])
  }

  lemma {:induction false} MessagesAppend(a: seq<Call>, b: seq<Call>)
    ensures Messages(a + b) == Messages(a) + Messages(b)
  {
    if a == [] {
      assert a + b == b;
    } else {
      var ab := a + b;
      assert ab != [] && ab[0] == a[0];
      assert ab[1..] == a[1..] + b;
      MessagesAppend(a[1..], b);
      calc {
        Messages(ab);
        MessageOf(a[0]) + Messages(a[1..] + b);
        MessageOf(a[0]) + (Messages(a[1..]) + Messages(b));
        (MessageOf(a[0]) + Messages(a[1..])) + Messages(b);
        Messages(a) + Messages(b);
      }
    }
  }

  predicate Assembles(trace: seq<Call>) {
    exists k :: 0 <= k < |trace| && trace[k].Assemble?
  }

  predicate Executes(trace: seq<Call>) {
    exists k :: 0 <= k < |trace| && trace[k].Execute?
  }

  // ----- asm -----

  /** The asm options after the configuration stage. */
  datatype AsmOptions = AsmOptions(input: Value, output: Value, exec: Value, monitor: Value, quiet: Value, types: Value)

  /** Loading and merging the `asm` section, when --config was given. */
  function AsmConfigure(o: AsmOptions, config: Option<ConfigFile>): Result<AsmOptions>
  {
    if config.None? then Ok(o)
    else
      match GetConfig(config.value)
      case Err(e) => Err(e)
      case Ok(configuration) =>
        if "asm" !in configuration then Err(BadOptionUsage("--config", NoSectionMessage("asm")))
        else
          var section := configuration["asm"];
          match CheckAsmContent(section, o.input, o.output, o.types)
          case Err(e) => Err(e)
          case Ok(files) =>
            Ok(AsmOptions(files.input, files.output, CheckExec(o.exec, section),
                          CheckMonitor(o.monitor, section), CheckQuiet(o.quiet, section), files.types))
  }

  /** The three checks made after the processor exists, in their order. */
  function AsmValidate(o: AsmOptions): Option<Error>
  {
    if Truthy(o.quiet) && Truthy(o.monitor) then Some(BadParameter(QuietMonitorMessage))
    else if o.types == NoTypeGiven then Some(BadOptionUsage("--type", NoTypeMessage))
    else TypeCheck(o.types)
  }

  /** The calls made once every check passed. */
  function AsmDispatch(o: AsmOptions, assembled: bool, executed: bool): seq<Call>
  {
    [Assemble(o.input, o.output, o.quiet, o.types)] +
    if assembled && Truthy(o.exec) then
      [PrintMessage(o.quiet, Exec), Execute(RomTag, o.monitor, o.quiet)] +
      if executed then
        [PrintMessage(o.quiet, Blank), PrintMessage(o.quiet, Acc),
         PrintMessage(o.quiet, Carry), PrintMessage(o.quiet, Blank)]
      else []
    else []
  }

  /** asm as a whole: core check, configuration stage, processor creation,
      validation, then assembling and the optional execute chain. */
  function AsmRun(core: bool, o: AsmOptions, config: Option<ConfigFile>, assembled: bool, executed: bool): Outcome
  {
    if !core then Outcome([], Some(CoreNotInstalled))
    else
      match AsmConfigure(o, config)
      case Err(e) => Outcome([], Some(e))
      case Ok(resolved) =>
        match AsmValidate(resolved)
        case Some(e) => Outcome([NewProcessor], Some(e))
        case None => Outcome([NewProcessor] + AsmDispatch(resolved, assembled, executed), None)
  }

  /** The configuration stage of asm: with --config, load the file, require
      the `asm` section, merge `input`, `output` and `type`, then resolve the
      three flags against the section. */
  method ConfigureAsm(config: Option<ConfigFile>, given: AsmOptions) returns (r: Result<AsmOptions>)
    ensures r == AsmConfigure(given, config)
  {
    if config.None? {
      return Ok(given);
    }
    var loaded := GetConfig(config.value);
    if loaded.Err? {
      return Err(loaded.error);
    }
    var configuration := loaded.value;
    if "asm" in configuration {
      var section := configuration["asm"];
      var content := CheckAsmContent(section, given.input, given.output, given.types);
      if content.Err? {
        return Err(content.error);
      }
      var execute := CheckExec(given.exec, section);
      var monitor := CheckMonitor(given.monitor, section);
      var quiet := CheckQuiet(given.quiet, section);
      return Ok(AsmOptions(content.value.input, content.value.output, execute, monitor, quiet, content.value.types));
    } else {
      return Err(BadOptionUsage("--config", NoSectionMessage("asm")));
    }
  }

  /** The asm command. `assembled` and `executed` are what `assemble` and
      `execute` return. */
  method Asm(core: bool, input: Value, output: Value, exec: Value, monitor: Value, quiet: Value,
             types: Value, config: Option<ConfigFile>, assembled: bool, executed: bool)
    returns (trace: seq<Call>, failure: Option<Error>)
    ensures Outcome(trace, failure) ==
            AsmRun(core, AsmOptions(input, output, exec, monitor, quiet, types), config, assembled, executed)
  {
    trace := [];
    if !core {
      return trace, Some(CoreNotInstalled);
    }
    var configured := ConfigureAsm(config, AsmOptions(input, output, exec, monitor, quiet, types));
    if configured.Err? {
      return trace, Some(configured.error);
    }
    var o := configured.value;
    trace := trace + [NewProcessor];
    if Truthy(o.quiet) && Truthy(o.monitor) {
      return trace, Some(BadParameter(QuietMonitorMessage));
    }
    if o.types == NoTypeGiven {
      return trace, Some(BadOptionUsage("--type", NoTypeMessage));
    }
    failure := CheckType(o.types);
    if failure.Some? {
      return;
    }
    var calls := AssembleAndExecute(o, assembled, executed);
    trace := trace + calls;
  }

  /** The end of asm once every check passed: assemble, and when that
      succeeded and exec is set, the EXEC message, execute, and when that
      succeeded the four summary messages. */
  method AssembleAndExecute(o: AsmOptions, assembled: bool, executed: bool) returns (calls: seq<Call>)
    ensures calls == AsmDispatch(o, assembled, executed)
  {
    calls := [Assemble(o.input, o.output, o.quiet, o.types)];
    if assembled && Truthy(o.exec) {
      calls := calls + [PrintMessage(o.quiet, Exec)];
      calls := calls + [Execute(RomTag, o.monitor, o.quiet)];
      if executed {
        calls := calls + [PrintMessage(o.quiet, Blank)];
        calls := calls + [PrintMessage(o.quiet, Acc)];
        calls := calls + [PrintMessage(o.quiet, Carry)];
        calls := calls + [PrintMessage(o.quiet, Blank)];
      }
    }
  }

  // ----- dis -----

  /** dis as a whole. --labels is a plain flag, so `labels` is a bool. */
  function DisRun(core: bool, obj: Value, inst: Value, labels: bool, config: Option<ConfigFile>): Outcome
  {
    if !core then Outcome([], Some(CoreNotInstalled))
    else
      var merged: Result<DisOptions> :=
        if config.None? then Ok(DisOptions(obj, inst, PyBool(labels)))
        else
          match GetConfig(config.value)
          case Err(e) => Err(e)
          case Ok(configuration) =>
            if "dis" !in configuration then Err(BadOptionUsage("--config", NoSectionMessage("dis")))
            else CheckDisContent(configuration["dis"], obj, inst, PyBool(labels));
      match merged
      case Err(e) => Outcome([], Some(e))
      case Ok(d) =>
        match CheckInst(d.inst)
        case Err(e) => Outcome([], Some(e))
        case Ok(count) =>
          Outcome([NewProcessor, Retrieve(d.objectFile, PyBool(false)), Disassemble(count, d.labels)], None)
  }

  method Dis(core: bool, obj: Value, inst: Value, labels: bool, config: Option<ConfigFile>)
    returns (trace: seq<Call>, failure: Option<Error>)
    ensures Outcome(trace, failure) == DisRun(core, obj, inst, labels, config)
  {
    trace, failure := [], None;
    if !core {
      return trace, Some(CoreNotInstalled);
    }
    var objectFile, count, showLabels := obj, inst, PyBool(labels);
    if config.Some? {
      var loaded := GetConfig(config.value);
      if loaded.Err? {
        return trace, Some(loaded.error);
      }
      var configuration := loaded.value;
      if "dis" in configuration {
        var content := CheckDisContent(configuration["dis"], obj, count, showLabels);
        if content.Err? {
          return trace, Some(content.error);
        }
        objectFile, count, showLabels := content.value.objectFile, content.value.inst, content.value.labels;
      } else {
        return trace, Some(BadOptionUsage("--config", NoSectionMessage("dis")));
      }
    }
    var checked := CheckInst(count);
    if checked.Err? {
      return trace, Some(checked.error);
    }
    count := checked.value;
    trace := trace + [NewProcessor];
    trace := trace + [Retrieve(objectFile, PyBool(false))];
    trace := trace + [Disassemble(count, showLabels)];
  }

  // ----- exe -----

  /** exe as a whole. --quiet is a plain flag (default False), so `quiet` is
      a bool; `object_file` is only bound inside the --config branch. */
  function ExeRun(core: bool, obj: Value, quiet: bool, config: Option<ConfigFile>): Outcome
  {
    if !core then Outcome([], Some(CoreNotInstalled))
    else if config.None? then Outcome([NewProcessor], Some(UnboundLocal("object_file")))
    else
      match GetConfig(config.value)
      case Err(e) => Outcome([], Some(e))
      case Ok(configuration) =>
        if "exe" !in configuration then Outcome([], Some(BadOptionUsage("--config", NoSectionMessage("exe"))))
        else
          var section := configuration["exe"];
          var objectFile := Merge(obj, PyNone, "object", section);
          var q := CheckQuiet(PyBool(quiet), section);
          Outcome([NewProcessor, Retrieve(objectFile, q), Execute(RetrievedImage, PyBool(false), q)], None)
  }

  method Exe(core: bool, obj: Value, quiet: bool, config: Option<ConfigFile>)
    returns (trace: seq<Call>, failure: Option<Error>)
    ensures Outcome(trace, failure) == ExeRun(core, obj, quiet, config)
  {
    trace, failure := [], None;
    if !core {
      return trace, Some(CoreNotInstalled);
    }
    var q := PyBool(quiet);
    var objectFile: Option<Value> := None;  // None while the local is unbound
    if config.Some? {
      var loaded := GetConfig(config.value);
      if loaded.Err? {
        return trace, Some(loaded.error);
      }
      var configuration := loaded.value;
      objectFile := Some(obj);
      if "exe" in configuration {
        var section := configuration["exe"];
        if "object" in section && objectFile.value == PyNone {
          objectFile := Some(section["object"]);
        }
        q := CheckQuiet(q, section);
      } else {
        return trace, Some(BadOptionUsage("--config", NoSectionMessage("exe")));
      }
    }
    trace := trace + [NewProcessor];
    if objectFile.None? {
      return trace, Some(UnboundLocal("object_file"));
    }
    trace := trace + [Retrieve(objectFile.value, q)];
    trace := trace + [Execute(RetrievedImage, PyBool(false), q)];
  }
}

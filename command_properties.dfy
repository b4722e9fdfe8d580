/** What the three commands promise: which failure comes first, that nothing
    is dispatched once a check fails, the order of the execute chain, and the
    behaviour of the code as written where it departs from the documented
    precedence rule. */
module CommandProperties {
  import opened Outcomes
  import opened PyValues
  import opened Config
  import opened Checks
  import opened Commands

  // ----- All commands -----

  /** Without the core, every command fails with CoreNotInstalled before the
      configuration file is looked at and before any call is made. */
  lemma CoreCheckedFirst(o: AsmOptions, obj: Value, inst: Value, flag: bool, config: Option<ConfigFile>,
                         assembled: bool, executed: bool)
    ensures AsmRun(false, o, config, assembled, executed) == Outcome([], Some(CoreNotInstalled))
    ensures DisRun(false, obj, inst, flag, config) == Outcome([], Some(CoreNotInstalled))
    ensures ExeRun(false, obj, flag, config) == Outcome([], Some(CoreNotInstalled))
  {
  }

  /** A configuration file that loads but lacks the command's section is a
      usage error on --config, raised before any call is made. */
  lemma MissingSectionRejected(o: AsmOptions, obj: Value, inst: Value, flag: bool, file: ConfigFile,
                               assembled: bool, executed: bool)
    requires GetConfig(file).Ok?
    ensures "asm" !in GetConfig(file).value ==>
              AsmRun(true, o, Some(file), assembled, executed)
              == Outcome([], Some(BadOptionUsage("--config", NoSectionMessage("asm"))))
    ensures "dis" !in GetConfig(file).value ==>
              DisRun(true, obj, inst, flag, Some(file))
              == Outcome([], Some(BadOptionUsage("--config", NoSectionMessage("dis"))))
    ensures "exe" !in GetConfig(file).value ==>
              ExeRun(true, obj, flag, Some(file))
              == Outcome([], Some(BadOptionUsage("--config", NoSectionMessage("exe"))))
  {
  }

  /** A configuration file that does not load ends every command with the
      loader's failure, before any call is made. */
  lemma LoadFailurePropagates(o: AsmOptions, obj: Value, inst: Value, flag: bool, file: ConfigFile,
                              assembled: bool, executed: bool)
    requires GetConfig(file).Err?
    ensures AsmRun(true, o, Some(file), assembled, executed) == Outcome([], Some(GetConfig(file).error))
    ensures DisRun(true, obj, inst, flag, Some(file)) == Outcome([], Some(GetConfig(file).error))
    ensures ExeRun(true, obj, flag, Some(file)) == Outcome([], Some(GetConfig(file).error))
  {
  }

  // ----- asm -----

  /** `assemble` is called exactly when asm does not fail, and a failing asm
      has made no call beyond creating the processor. */
  lemma AsmAssemblesIffNoFailure(core: bool, o: AsmOptions, config: Option<ConfigFile>, assembled: bool, executed: bool)
    ensures var r := AsmRun(core, o, config, assembled, executed);
            Assembles(r.trace) <==> r.failure == None
    ensures var r := AsmRun(core, o, config, assembled, executed);
            r.failure != None ==> r.trace == [] || r.trace == [NewProcessor]
  {
    var r := AsmRun(core, o, config, assembled, executed);
    if r.failure == None {
      assert r.trace[1].Assemble?;
    }
  }

  /** Once the configuration stage has produced the options, the checks run
      in a fixed order: quiet with monitor first, then the presence of
      --type, then the tokens themselves. */
  lemma AsmValidationOrder(o: AsmOptions, config: Option<ConfigFile>, assembled: bool, executed: bool)
    requires AsmConfigure(o, config).Ok?
    ensures var p := AsmConfigure(o, config).value;
            var r := AsmRun(true, o, config, assembled, executed);
            (Truthy(p.quiet) && Truthy(p.monitor) ==> r == Outcome([NewProcessor], Some(BadParameter(QuietMonitorMessage)))) &&
            (!(Truthy(p.quiet) && Truthy(p.monitor)) && p.types == NoTypeGiven ==>
               r == Outcome([NewProcessor], Some(BadOptionUsage("--type", NoTypeMessage)))) &&
            (!(Truthy(p.quiet) && Truthy(p.monitor)) && p.types != NoTypeGiven ==> r.failure == TypeCheck(p.types))
  {
  }

  /** --quiet together with --monitor is rejected whatever the other options
      and the configuration say, as long as the configuration stage passes. */
  lemma AsmExplicitQuietMonitorRejected(o: AsmOptions, config: Option<ConfigFile>, assembled: bool, executed: bool)
    requires o.quiet == PyBool(true) && o.monitor == PyBool(true)
    requires AsmConfigure(o, config).Ok?
    ensures AsmRun(true, o, config, assembled, executed) == Outcome([NewProcessor], Some(BadParameter(QuietMonitorMessage)))
  {
  }

  /** After assembling, `execute` is called only when `assemble` succeeded
      and exec is set; the messages are EXEC, then, only when `execute`
      succeeded, BLANK, ACC, CARRY, BLANK. EXEC comes right before `execute`. */
  lemma AsmExecuteChain(o: AsmOptions, config: Option<ConfigFile>, assembled: bool, executed: bool)
    requires AsmRun(true, o, config, assembled, executed).failure == None
    ensures AsmConfigure(o, config).Ok?
    ensures var p := AsmConfigure(o, config).value;
            var t := AsmRun(true, o, config, assembled, executed).trace;
            (Executes(t) <==> assembled && Truthy(p.exec)) &&
            Messages(t) == (if assembled && Truthy(p.exec) then [Exec] + (if executed then [Blank, Acc, Carry, Blank] else []) else []) &&
            (Executes(t) ==> t[2] == PrintMessage(p.quiet, Exec) && t[3] == Execute(RomTag, p.monitor, p.quiet))
  {
    var p := AsmConfigure(o, config).value;
    var t := AsmRun(true, o, config, assembled, executed).trace;
    var head := [NewProcessor, Assemble(p.input, p.output, p.quiet, p.types)];
    assert Messages(head) == [] by {
      assert head[1..] == [head[1]];
      assert Messages([head[1]]) == [] + Messages([]);
    }
    if assembled && Truthy(p.exec) {
      var chain := [PrintMessage(p.quiet, Exec), Execute(RomTag, p.monitor, p.quiet)];
      var summary := if executed then [PrintMessage(p.quiet, Blank), PrintMessage(p.quiet, Acc),
                                       PrintMessage(p.quiet, Carry), PrintMessage(p.quiet, Blank)] else [];
      assert t == head + (chain + summary);
      MessagesAppend(head, chain + summary);
      MessagesAppend(chain, summary);
      assert Messages(chain) == [Exec] by {
        assert chain[1..] == [chain[1]];
        assert Messages([chain[1]]) == [] + Messages([]);
      }
      if executed {
        SummaryMessages(p.quiet);
      }
      assert t[3].Execute?;
    } else {
      assert t == head;
    }
  }

  lemma SummaryMessages(q: Value)
    ensures Messages([PrintMessage(q, Blank), PrintMessage(q, Acc), PrintMessage(q, Carry), PrintMessage(q, Blank)])
            == [Blank, Acc, Carry, Blank]
  {
    var s4 := [PrintMessage(q, Blank)];
    assert s4[1..] == [];
    assert Messages(s4) == [Blank];
    var s3 := [PrintMessage(q, Carry)] + s4;
    assert s3[1..] == s4;
    assert Messages(s3) == [Carry, Blank];
    var s2 := [PrintMessage(q, Acc)] + s3;
    assert s2[1..] == s3;
    assert Messages(s2) == [Acc, Carry, Blank];
    var s1 := [PrintMessage(q, Blank)] + s2;
    assert s1[1..] == s2;
    assert Messages(s1) == [Blank, Acc, Carry, Blank];
    assert s1 == [PrintMessage(q, Blank), PrintMessage(q, Acc), PrintMessage(q, Carry), PrintMessage(q, Blank)];
  }

  /** `asm --input a.asm --type OBJ` without a configuration file assembles
      once, with quiet still None, and starts no execute chain. */
  lemma AsmInputAndTypeScenario(assembled: bool, executed: bool)
    ensures AsmRun(true, AsmOptions(PyStr("a.asm"), DefaultOutput, PyNone, PyNone, PyNone, PyTuple([PyStr("OBJ")])),
                   None, assembled, executed)
            == Outcome([NewProcessor, Assemble(PyStr("a.asm"), DefaultOutput, PyNone, PyTuple([PyStr("OBJ")]))], None)
  {
    assert Upper("OBJ") == "OBJ";
  }

  /** `--type obj --type h` is accepted case-insensitively. */
  lemma LowerCaseTypesAccepted()
    ensures TypeCheck(PyTuple([PyStr("obj"), PyStr("h")])) == None
  {
    var xs := [PyStr("obj"), PyStr("h")];
    assert Upper(xs[0].s) == "OBJ" && Upper(xs[1].s) == "H";
    assert forall k :: 0 <= k < |xs| ==> Upper(xs[k].s) in OtherTypes;
  }

  /** `--type ALL --type OBJ` is the ALL-with-others error. */
  lemma AllWithObjRejected()
    ensures TypeCheck(PyTuple([PyStr("ALL"), PyStr("OBJ")])) == Some(BadOptionUsage("--type", AllWithOthersMessage))
  {
    var xs := [PyStr("ALL"), PyStr("OBJ")];
    assert Upper(xs[0].s) == "ALL" && Upper(xs[1].s) == "OBJ";
    assert forall k :: 0 <= k < |xs| ==> Upper(xs[k].s) in OutputTypes;
  }

  /** `--type ALL --type all` is accepted: ALL may be repeated. */
  lemma RepeatedAllAccepted()
    ensures TypeCheck(PyTuple([PyStr("ALL"), PyStr("all")])) == None
  {
    var xs := [PyStr("ALL"), PyStr("all")];
    assert Upper(xs[0].s) == "ALL" && Upper(xs[1].s) == "ALL";
    assert forall k :: 0 <= k < |xs| ==> Upper(xs[k].s) == "ALL";
  }

  // ----- dis -----

  /** A dis that does not fail creates the processor, retrieves the object
      (not quietly) and disassembles a count that lies in [1, 4096], whether
      the count came from --inst, the section or the default. */
  lemma DisCountInRange(core: bool, obj: Value, inst: Value, labels: bool, config: Option<ConfigFile>)
    requires DisRun(core, obj, inst, labels, config).failure == None
    ensures var t := DisRun(core, obj, inst, labels, config).trace;
            |t| == 3 && t[0] == NewProcessor && t[1].Retrieve? && t[1].quiet == PyBool(false) &&
            t[2].Disassemble? && AsNumber(t[2].inst).Some? && 1 <= AsNumber(t[2].inst).value <= 4096
  {
  }

  /** An out-of-range `inst` in the section is rejected like one given with
      --inst. */
  lemma DisSectionInstChecked(file: ConfigFile, labels: bool, n: int)
    requires GetConfig(file).Ok? && "dis" in GetConfig(file).value
    requires var s := GetConfig(file).value["dis"];
             "object" in s && s["object"] != PyNone && "inst" in s && s["inst"] == PyInt(n)
    requires n < 1 || n > 4096
    ensures DisRun(true, PyNone, PyNone, labels, Some(file)) == Outcome([], Some(BadOptionUsage("--inst", InstRangeMessage)))
  {
  }

  /** `dis --object rom.bin --inst 5000` fails the range check before any call. */
  lemma DisInstTooLargeScenario()
    ensures DisRun(true, PyStr("rom.bin"), PyInt(5000), false, None)
            == Outcome([], Some(BadOptionUsage("--inst", InstRangeMessage)))
  {
  }

  /** As written, dis with --config fails on the unbound `object_file` unless
      the section has an `object` key and --object is absent: giving both
      --object and --config fails, and so does a section without `object`. */
  lemma DisObjectOnlyFromSection(obj: Value, inst: Value, labels: bool, file: ConfigFile)
    requires GetConfig(file).Ok? && "dis" in GetConfig(file).value
    requires obj != PyNone || "object" !in GetConfig(file).value["dis"]
    ensures DisRun(true, obj, inst, labels, Some(file)) == Outcome([], Some(UnboundLocal("object_file")))
  {
  }

  /** With a dis section in use, the labels handed to `disassemble` are the
      section's only when --labels is off and the key exists; otherwise
      True, even when neither --labels nor the key asked for labels. */
  lemma DisLabelsWithSection(obj: Value, inst: Value, labels: bool, file: ConfigFile)
    requires GetConfig(file).Ok? && "dis" in GetConfig(file).value
    requires DisRun(true, obj, inst, labels, Some(file)).failure == None
    ensures var s := GetConfig(file).value["dis"];
            var t := DisRun(true, obj, inst, labels, Some(file)).trace;
            t[1] == Retrieve(s["object"], PyBool(false)) &&
            t[2].labels == (if !labels && "labels" in s then s["labels"] else PyBool(true))
  {
  }

  // ----- exe -----

  /** As written, exe without --config always fails on the unbound
      `object_file`, after creating the processor and before `retrieve`,
      even when --object was given. */
  lemma ExeWithoutConfigUnbound(obj: Value, quiet: bool)
    ensures ExeRun(true, obj, quiet, None) == Outcome([NewProcessor], Some(UnboundLocal("object_file")))
  {
  }

  /** With a configuration file, exe retrieves --object if given, else the
      section's `object`, and always runs quietly: --quiet defaults to False,
      which is not None, so check_quiet turns it into True. */
  lemma ExeWithSection(obj: Value, quiet: bool, file: ConfigFile)
    requires GetConfig(file).Ok? && "exe" in GetConfig(file).value
    ensures var s := GetConfig(file).value["exe"];
            var objectFile := if obj == PyNone && "object" in s then s["object"] else obj;
            ExeRun(true, obj, quiet, Some(file))
            == Outcome([NewProcessor, Retrieve(objectFile, PyBool(true)), Execute(RetrievedImage, PyBool(false), PyBool(true))], None)
  {
  }
}

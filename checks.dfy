/** The option checks of the command-line front end: the tri-state flag
    resolvers, the instruction-count range check, the per-section merges and
    the output-type validator. */
module Checks {
  import opened Outcomes
  import opened PyValues
  import opened Config

  // ----- Tri-state flags -----

  /** The shared shape of check_quiet, check_exec and check_monitor: any
      command-line value other than None resolves to True; None falls back to
      the section's value, and to False when the key is absent. */
  function ResolveFlag(flag: Value, key: string, section: Section): (r: Value)
    ensures flag != PyNone ==> r == PyBool(true)
    ensures flag == PyNone && key in section ==> r == section[key]
    ensures flag == PyNone && key !in section ==> r == PyBool(false)
  {
    if flag == PyNone then
      if key in section then section[key] else PyBool(false)
    else
      PyBool(true)
  }

  function CheckQuiet(quiet: Value, section: Section): (r: Value)
    ensures quiet != PyNone ==> r == PyBool(true)
    ensures quiet == PyNone ==> r == if "quiet" in section then section["quiet"] else PyBool(false)
  {
    ResolveFlag(quiet, "quiet", section)
  }

  function CheckExec(exec: Value, section: Section): (r: Value)
    ensures exec != PyNone ==> r == PyBool(true)
    ensures exec == PyNone ==> r == if "exec" in section then section["exec"] else PyBool(false)
  {
    ResolveFlag(exec, "exec", section)
  }

  function CheckMonitor(monitor: Value, section: Section): (r: Value)
    ensures monitor != PyNone ==> r == PyBool(true)
    ensures monitor == PyNone ==> r == if "monitor" in section then section["monitor"] else PyBool(false)
  {
    ResolveFlag(monitor, "monitor", section)
  }

  /** The flag resolvers follow the documented precedence only once the
      explicit value is read as True: an explicit False is not kept. */
  lemma FlagPrecedence(flag: Value, key: string, section: Section)
    ensures ResolveFlag(flag, key, section)
            == Precedence(if flag == PyNone then None else Some(PyBool(true)), key, section, PyBool(false))
    ensures ResolveFlag(PyBool(false), key, section) == PyBool(true)
  {
  }

  // ----- Instruction count -----

  /** check_inst: None becomes 4096; a number in [1, 4096] is returned as it
      came; any other number is a usage error on --inst; a value `<` does not
      apply to is a TypeError. Whatever it returns is a number in range. */
  function CheckInst(inst: Value): (r: Result<Value>)
    ensures inst == PyNone ==> r == Ok(PyInt(4096))
    ensures inst != PyNone && AsNumber(inst).Some? ==>
              (r.Ok? <==> 1 <= AsNumber(inst).value <= 4096)
    ensures inst != PyNone && r.Ok? ==> r.value == inst
    ensures AsNumber(inst).Some? && r.Err? ==> r.error == BadOptionUsage("--inst", InstRangeMessage)
    ensures inst != PyNone && AsNumber(inst).None? ==> r == Err(TypeError)
    ensures r.Ok? ==> AsNumber(r.value).Some? && 1 <= AsNumber(r.value).value <= 4096
  {
    if inst == PyNone then
      Ok(PyInt(4096))
    else
      match AsNumber(inst)
      case None => Err(TypeError)
      case Some(n) =>
        if n < 1 || n > 4096 then Err(BadOptionUsage("--inst", InstRangeMessage))
        else Ok(inst)
  }

  // ----- Section merges -----

  /** The click default of --type: the one-element tuple ('None',). */
  const NoTypeGiven: Value := PyTuple([PyStr("None")])

  /** The click default of --output. */
  const DefaultOutput: Value := PyStr("default")

  datatype AsmFiles = AsmFiles(input: Value, output: Value, types: Value)

  /** The three asm options still at their command-line defaults. */
  predicate AtDefaults(f: AsmFiles) {
    f.input == PyNone && f.output == DefaultOutput && f.types == NoTypeGiven
  }

  /** check_asm_content: each of `input`, `output`, `type` is taken from the
      section only while the command-line value is at its default; the
      result is an error exactly when all three are still at their defaults. */
  function CheckAsmContent(section: Section, input: Value, output: Value, types: Value): (r: Result<AsmFiles>)
    ensures var merged := AsmFiles(Merge(input, PyNone, "input", section),
                                   Merge(output, DefaultOutput, "output", section),
                                   Merge(types, NoTypeGiven, "type", section));
            if AtDefaults(merged) then r == Err(BadOptionUsage("--config", EmptyAsmMessage))
            else r == Ok(merged)
  {
    var inputFile := if "input" in section && input == PyNone then section["input"] else input;
    var out := if "output" in section && output == DefaultOutput then section["output"] else output;
    var typeType := if "type" in section && types == NoTypeGiven then section["type"] else types;
    if inputFile == PyNone && out == DefaultOutput && typeType == NoTypeGiven then
      Err(BadOptionUsage("--config", EmptyAsmMessage))
    else
      Ok(AsmFiles(inputFile, out, typeType))
  }

  /** The asm section counts as empty exactly when every command-line value
      is at its default and each key is absent or holds that same default. */
  lemma AsmContentEmptyIff(section: Section, input: Value, output: Value, types: Value)
    ensures CheckAsmContent(section, input, output, types).Err? <==>
            (input == PyNone && ("input" !in section || section["input"] == PyNone)) &&
            (output == DefaultOutput && ("output" !in section || section["output"] == DefaultOutput)) &&
            (types == NoTypeGiven && ("type" !in section || section["type"] == NoTypeGiven))
  {
  }

  /** A `type` key read from TOML is never the tuple ('None',), so an asm
      section holding one is never empty, and the key always wins over the
      --type default. */
  lemma ConfiguredTypeNeverDefault(section: Section, input: Value, output: Value)
    requires "type" in section && !section["type"].PyTuple?
    ensures CheckAsmContent(section, input, output, NoTypeGiven) ==
            Ok(AsmFiles(Merge(input, PyNone, "input", section),
                        Merge(output, DefaultOutput, "output", section),
                        section["type"]))
  {
  }

  datatype DisOptions = DisOptions(objectFile: Value, inst: Value, labels: Value)

  /** check_dis_content: `object_file` is bound only when the section has an
      `object` key and --object was not given; every other call fails on the
      unbound local at the return. A None object in the section is a usage
      error. `inst` comes from the section only while --inst is absent;
      `labels` takes the section's value only when --labels is off and the
      key exists, and is True in every other case. */
  function CheckDisContent(section: Section, obj: Value, inst: Value, labels: Value): (r: Result<DisOptions>)
    ensures !("object" in section && obj == PyNone) ==> r == Err(UnboundLocal("object_file"))
    ensures "object" in section && obj == PyNone && section["object"] == PyNone ==>
              r == Err(BadOptionUsage("--object/--config", NoObjectMessage))
    ensures r.Err? <==> !("object" in section && obj == PyNone && section["object"] != PyNone)
    ensures r.Ok? ==> r.value.objectFile == section["object"] && r.value.objectFile != PyNone
    ensures r.Ok? ==> r.value.inst == Merge(inst, PyNone, "inst", section)
    ensures r.Ok? ==>
              r.value.labels == (if labels == PyBool(false) && "labels" in section then section["labels"] else PyBool(true))
  {
    if "object" in section && obj == PyNone then
      var objectFile := section["object"];
      if objectFile == PyNone then
        Err(BadOptionUsage("--object/--config", NoObjectMessage))
      else
        var inst' := if "inst" in section && inst == PyNone then section["inst"] else inst;
        var labels' := if labels == PyBool(false) && "labels" in section then section["labels"] else PyBool(true);
        Ok(DisOptions(objectFile, inst', labels'))
    else
      Err(UnboundLocal("object_file"))
  }

  // ----- Output types -----

  const OutputTypes: set<string> := {"ALL", "OBJ", "H", "BIN"}
  const OtherTypes: set<string> := {"OBJ", "H", "BIN"}

  /** The verdict of check_type on the items its loops visit, stated without
      loops: a non-string item fails at `.upper()`; then an item outside
      {ALL, OBJ, H, BIN} (after upper-casing) is reported; only then is ALL
      alongside OBJ, H or BIN reported. */
  function TokenCheck(xs: seq<Value>): Option<Error>
  {
    if exists k :: 0 <= k < |xs| && !xs[k].PyStr? then
      Some(AttributeError)
    else if exists k :: 0 <= k < |xs| && Upper(xs[k].s) !in OutputTypes then
      Some(BadOptionUsage("--type", InvalidTypeMessage))
    else if (exists k :: 0 <= k < |xs| && Upper(xs[k].s) == "ALL") &&
            (exists k :: 0 <= k < |xs| && Upper(xs[k].s) in OtherTypes) then
      Some(BadOptionUsage("--type", AllWithOthersMessage))
    else
      None
  }

  /** The verdict of check_type on a --type value; a value a `for` loop
      cannot iterate is a TypeError. */
  function TypeCheck(types: Value): Option<Error>
  {
    match Iterate(types)
    case None => Some(TypeError)
    case Some(xs) => TokenCheck(xs)
  }

  /** The upper-cased tokens of a sequence of strings. */
  function TokenSet(xs: seq<Value>): set<string>
  {
    set k | 0 <= k < |xs| && xs[k].PyStr? :: Upper(xs[k].s)
  }

  /** check_type accepts a sequence of strings exactly when its upper-cased
      tokens lie in {ALL, OBJ, H, BIN} and, if ALL is among them, ALL is the
      only token (repeated ALL is fine). */
  lemma TokenCheckAccepts(xs: seq<Value>)
    requires forall k :: 0 <= k < |xs| ==> xs[k].PyStr?
    ensures TokenCheck(xs) == None <==>
            TokenSet(xs) <= OutputTypes && ("ALL" in TokenSet(xs) ==> TokenSet(xs) <= {"ALL"})
  {
    if TokenCheck(xs) == None {
      forall t | t in TokenSet(xs) ensures t in OutputTypes && ("ALL" in TokenSet(xs) ==> t == "ALL") {
        var k :| 0 <= k < |xs| && xs[k].PyStr? && Upper(xs[k].s) == t;
        if "ALL" in TokenSet(xs) {
          var j :| 0 <= j < |xs| && xs[j].PyStr? && Upper(xs[j].s) == "ALL";
        }
      }
    } else {
      if exists k :: 0 <= k < |xs| && Upper(xs[k].s) !in OutputTypes {
        var k :| 0 <= k < |xs| && Upper(xs[k].s) !in OutputTypes;
        assert Upper(xs[k].s) in TokenSet(xs);
      } else {
        var j :| 0 <= j < |xs| && Upper(xs[j].s) == "ALL";
        var k :| 0 <= k < |xs| && Upper(xs[k].s) in OtherTypes;
        assert Upper(xs[j].s) in TokenSet(xs);
        assert Upper(xs[k].s) in TokenSet(xs);
      }
    }
  }

  /** An invalid token is reported even when ALL is combined with others. */
  lemma InvalidReportedFirst(xs: seq<Value>, k: nat)
    requires forall j :: 0 <= j < |xs| ==> xs[j].PyStr?
    requires k < |xs| && Upper(xs[k].s) !in OutputTypes
    ensures TokenCheck(xs) == Some(BadOptionUsage("--type", InvalidTypeMessage))
  {
  }

  /** A `type` key given in the section as a plain string is iterated
      character by character, so it passes only when every character is
      `h` or `H` (the only one-letter output type). */
  lemma {:induction false} ConfiguredTypeStringIsCharacters(s: string)
    ensures TypeCheck(PyStr(s)) == None <==> forall k :: 0 <= k < |s| ==> UpperChar(s[k]) == 'H'
  {
    var xs := Iterate(PyStr(s)).value;
    forall k | 0 <= k < |s|
      ensures Upper(xs[k].s) == [UpperChar(s[k])]
      ensures Upper(xs[k].s) in OutputTypes <==> UpperChar(s[k]) == 'H'
      ensures Upper(xs[k].s) !in OtherTypes - {"H"}
    {
      assert xs[k] == PyStr([s[k]]);
      var u := Upper(xs[k].s);
      assert |u| == 1 && u[0] == UpperChar(s[k]);
      assert u == [UpperChar(s[k])];
    }
    if forall k :: 0 <= k < |s| ==> UpperChar(s[k]) == 'H' {
      forall k | 0 <= k < |xs| ensures Upper(xs[k].s) == "H" {
        assert [UpperChar(s[k])] == "H";
      }
    } else {
      var k :| 0 <= k < |s| && UpperChar(s[k]) != 'H';
      assert Upper(xs[k].s) !in OutputTypes;
    }
  }

  /** check_type: the first loop upper-cases each item, notes ALL and clears
      `good` on an unknown token; only after the loop is an unknown token
      reported. When ALL was seen, the second loop clears `others` on OBJ, H
      or BIN, and that combination is reported. */
  method CheckType(types: Value) returns (failure: Option<Error>)
    ensures failure == TypeCheck(types)
  {
    var items := Iterate(types);
    if items.None? {
      return Some(TypeError);
    }
    var xs := items.value;
    var good := true;
    var allFound := false;
    for i := 0 to |xs|
      invariant forall k :: 0 <= k < i ==> xs[k].PyStr?
      invariant good <==> forall k :: 0 <= k < i ==> Upper(xs[k].s) in OutputTypes
      invariant allFound <==> exists k :: 0 <= k < i && Upper(xs[k].s) == "ALL"
    {
      if !xs[i].PyStr? {
        return Some(AttributeError);
      }
      var token := Upper(xs[i].s);
      if token == "ALL" {
        allFound := true;
      }
      if token !in OutputTypes {
        good := false;
      }
    }
    if !good {
      return Some(BadOptionUsage("--type", InvalidTypeMessage));
    }
    if allFound {
      // `others` stays true while no OBJ, H or BIN has been seen
      var others := true;
      for i := 0 to |xs|
        invariant others <==> forall k :: 0 <= k < i ==> Upper(xs[k].s) !in OtherTypes
      {
        if Upper(xs[i].s) in OtherTypes {
          others := false;
        }
      }
      if !others {
        return Some(BadOptionUsage("--type", AllWithOthersMessage));
      }
    }
    return None;
  }
}

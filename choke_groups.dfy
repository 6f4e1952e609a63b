/**
 * The choke-group name registry of the command layer, in the form it takes
 * when libtorrent's resource manager is not used: a vector of groups
 * addressed by name, by index, or by an index counted from the end.  A
 * group is modelled by its name; its queues belong to libtorrent.
 */
module ChokeGroups {

  import opened Wrappers
  import opened Bencode

  const NOT_FOUND := "Choke group not found."
  const VALUE_NAME := "Cannot use a value string as choke group name."
  const DUPLICATE := "Duplicate name for choke group."
  const ARITY := "Incorrect number of arguments."

  /** The name of the group the command layer seeds the registry with. */
  const DEFAULT_GROUP := "default"

  /**
   * `rpc::parse_whole_value_nothrow`: the integer a whole string spells, if
   * any.  Its rules live outside this model, so the registry takes it as a
   * parameter.
   */
  type Parser = string -> Option<int64>

  /** What the commands throw: an input error with its message, or a type error of the value tree. */
  datatype Error = InputError(msg: string) | TypeError

  /** What a setter resolved: the group it addresses and the argument it hands to libtorrent. */
  datatype Setting =
    | MaxUnchoked(group: nat, up: bool, max: int64)
    | Heuristics(group: nat, up: bool, heuristics: string)
    | TrackerMode(group: nat, mode: string)

  /** A registry whose names are non-empty, not integers and pairwise distinct. */
  predicate WellFormed(names: seq<string>, parse: Parser) {
    && (forall i :: 0 <= i < |names| ==> names[i] != "" && parse(names[i]).None?)
    && (forall i, j :: 0 <= i < j < |names| ==> names[i] != names[j])
  }

  /** `std::find_if` on the names: the first position holding `n`. */
  function FindName(names: seq<string>, n: string): (r: Option<nat>)
    ensures r.Some? ==> r.value < |names| && names[r.value] == n
    ensures r.Some? ==> forall j :: 0 <= j < r.value ==> names[j] != n
    ensures r.None? <==> n !in names
  {
    if |names| == 0 then None
    else if names[0] == n then Some(0)
    else match FindName(names[1..], n)
      case None => None
      case Some(k) => Some(k + 1)
  }

  /** The argument `cg_get_index` looks at: the first element of a non-empty list, else the value itself. */
  function Argument(raw: Value): Value {
    if raw.List? && |raw.items| > 0 then raw.items[0] else raw
  }

  /**
   * The numeric branch of `cg_get_index`: a negative index counts from the
   * end.  The unsigned comparison that follows rejects a still-negative
   * index, whose conversion to `size_t` is at least 2^63, beyond any size.
   */
  function Position(size: nat, index: int64): (r: Option<nat>)
    ensures r.Some? <==> -(size as int) <= index < size
    ensures r.Some? ==> r.value < size && r.value == (if index < 0 then size + index else index)
  {
    var adjusted := if index < 0 then size + index else index;
    if adjusted < 0 || adjusted >= size then None else Some(adjusted)
  }

  /** `cg_get_index`: a group name, a non-negative index or a negative one; anything else is not found. */
  function GetIndex(names: seq<string>, parse: Parser, raw: Value): (r: Result<nat, Error>)
    ensures r.Success? ==> r.value < |names|
    ensures r.Failure? ==> r.error == InputError(NOT_FOUND) || r.error == TypeError
    // A non-numeric string is looked up by name: the first group holding it, else "not found".
    ensures var arg := Argument(raw);
      arg.Str? && parse(arg.s).None? ==>
        && (r.Success? <==> arg.s in names)
        && (r.Success? ==> names[r.value] == arg.s && forall j :: 0 <= j < r.value ==> names[j] != arg.s)
        && (r.Failure? ==> r.error == InputError(NOT_FOUND))
    // Only an argument that is neither a string nor an integer is a type error.
    ensures r == Failure(TypeError) <==> !Argument(raw).Str? && !Argument(raw).Int?
  {
    var arg := Argument(raw);
    if arg.Str? && parse(arg.s).None? then
      match FindName(names, arg.s)
      case None => Failure(InputError(NOT_FOUND))
      case Some(k) => Success(k)
    else if !arg.Str? && !arg.Int? then Failure(TypeError)
    else
      var index := if arg.Str? then parse(arg.s).value else arg.i;
      match Position(|names|, index)
      case None => Failure(InputError(NOT_FOUND))
      case Some(k) => Success(k)
  }

  /** `cg_get_group`: the group the argument resolves to. */
  function GetGroup(names: seq<string>, parse: Parser, raw: Value): (r: Result<string, Error>)
    ensures r.Success? <==> GetIndex(names, parse, raw).Success?
    ensures r.Success? ==> r.value == names[GetIndex(names, parse, raw).value]
    ensures r.Failure? ==> r.error == GetIndex(names, parse, raw).error
  {
    match GetIndex(names, parse, raw)
    case Failure(e) => Failure(e)
    case Success(k) => Success(names[k])
  }

  /** `apply_cg_index_of`: the position of a name, or "not found". */
  function IndexOf(names: seq<string>, n: string): (r: Result<nat, Error>)
    ensures r.Success? <==> n in names
    ensures r.Success? ==> r.value < |names| && names[r.value] == n
    ensures r.Failure? ==> r.error == InputError(NOT_FOUND)
  {
    match FindName(names, n)
    case None => Failure(InputError(NOT_FOUND))
    case Some(k) => Success(k)
  }

  /** `apply_cg_insert` on the names: validated, then appended. */
  function InsertName(names: seq<string>, parse: Parser, n: string): (r: Result<seq<string>, Error>)
    ensures r.Success? <==> parse(n).None? && n != "" && n !in names
    ensures r.Success? ==> r.value == names + [n]
    ensures r.Failure? ==> r.error == InputError(if parse(n).Some? then VALUE_NAME else DUPLICATE)
  {
    if parse(n).Some? then Failure(InputError(VALUE_NAME))
    else if n == "" || FindName(names, n).Some? then Failure(InputError(DUPLICATE))
    else Success(names + [n])
  }

  /** The argument string a setter reads from its second argument; another type throws. */
  function ArgString(v: Value): Result<string, Error> {
    if v.Str? then Success(v.s) else Failure(TypeError)
  }

  /**
   * `apply_cg_max_set`: two arguments, the second parsed as an integer (an
   * unparseable one is rejected by the throwing parser), the first resolved
   * to a group.
   */
  function MaxSet(names: seq<string>, parse: Parser, args: seq<Value>, isUp: bool): (r: Result<Setting, Error>)
    ensures r == Failure(InputError(ARITY)) <==> |args| != 2
    ensures r.Success? <==>
      |args| == 2 && args[1].Str? && parse(args[1].s).Some? && GetIndex(names, parse, args[0]).Success?
    ensures r.Success? ==> |args| == 2 && r.value.MaxUnchoked? && r.value.up == isUp
    ensures r.Success? ==> GetIndex(names, parse, args[0]) == Success(r.value.group)
    ensures r.Success? ==> args[1].Str? && parse(args[1].s) == Some(r.value.max)
    // The second argument is read before the group is resolved.
    ensures |args| == 2 && !args[1].Str? ==> r == Failure(TypeError)
    ensures |args| == 2 && args[1].Str? && parse(args[1].s).None? ==> r == Failure(InputError(NOT_A_VALUE))
    ensures |args| == 2 && args[1].Str? && parse(args[1].s).Some? && GetIndex(names, parse, args[0]).Failure? ==>
      r == Failure(GetIndex(names, parse, args[0]).error)
  {
    if |args| != 2 then Failure(InputError(ARITY))
    else match ArgString(args[1])
      case Failure(e) => Failure(e)
      case Success(s) =>
        if parse(s).None? then Failure(InputError(NOT_A_VALUE))
        else match GetIndex(names, parse, args[0])
          case Failure(e) => Failure(e)
          case Success(k) => Success(MaxUnchoked(k, isUp, parse(s).value))
  }

  /** The message of the throwing parser, which is not part of this model. */
  const NOT_A_VALUE := "Not a value."

  /** `apply_cg_heuristics_set`: two arguments, the heuristics name, then the group. */
  function HeuristicsSet(names: seq<string>, parse: Parser, args: seq<Value>, isUp: bool): (r: Result<Setting, Error>)
    ensures r == Failure(InputError(ARITY)) <==> |args| != 2
    ensures r.Success? <==> |args| == 2 && args[1].Str? && GetIndex(names, parse, args[0]).Success?
    ensures r.Success? ==> |args| == 2 && args[1].Str? && r.value == Heuristics(r.value.group, isUp, args[1].s)
    ensures r.Success? ==> GetIndex(names, parse, args[0]) == Success(r.value.group)
    ensures |args| == 2 && !args[1].Str? ==> r == Failure(TypeError)
    ensures |args| == 2 && args[1].Str? && GetIndex(names, parse, args[0]).Failure? ==>
      r == Failure(GetIndex(names, parse, args[0]).error)
  {
    if |args| != 2 then Failure(InputError(ARITY))
    else match ArgString(args[1])
      case Failure(e) => Failure(e)
      case Success(s) =>
        match GetIndex(names, parse, args[0])
        case Failure(e) => Failure(e)
        case Success(k) => Success(Heuristics(k, isUp, s))
  }

  /** `apply_cg_tracker_mode_set`: two arguments, the mode name, then the group. */
  function TrackerModeSet(names: seq<string>, parse: Parser, args: seq<Value>): (r: Result<Setting, Error>)
    ensures r == Failure(InputError(ARITY)) <==> |args| != 2
    ensures r.Success? <==> |args| == 2 && args[1].Str? && GetIndex(names, parse, args[0]).Success?
    ensures r.Success? ==> |args| == 2 && args[1].Str? && r.value == TrackerMode(r.value.group, args[1].s)
    ensures r.Success? ==> GetIndex(names, parse, args[0]) == Success(r.value.group)
    ensures |args| == 2 && !args[1].Str? ==> r == Failure(TypeError)
    ensures |args| == 2 && args[1].Str? && GetIndex(names, parse, args[0]).Failure? ==>
      r == Failure(GetIndex(names, parse, args[0]).error)
  {
    if |args| != 2 then Failure(InputError(ARITY))
    else match ArgString(args[1])
      case Failure(e) => Failure(e)
      case Success(s) =>
        match GetIndex(names, parse, args[0])
        case Failure(e) => Failure(e)
        case Success(k) => Success(TrackerMode(k, s))
  }

  // ---------------------------------------------------------------------
  // Properties of index resolution.

  /** A name held by a well-formed registry resolves to its own position. */
  lemma NameResolves(names: seq<string>, parse: Parser, i: nat)
    requires WellFormed(names, parse) && i < |names|
    ensures GetIndex(names, parse, Str(names[i])) == Success(i)
    ensures GetGroup(names, parse, Str(names[i])) == Success(names[i])
    ensures IndexOf(names, names[i]) == Success(i)
  {
    assert names[i] in names;
  }

  /** A number resolves exactly when it lies in [-size, size), to its position counted from the front or the end. */
  lemma NumberResolves(names: seq<string>, parse: Parser, i: int64)
    ensures GetIndex(names, parse, Int(i)).Success? <==> -|names| <= i < |names|
    ensures 0 <= i < |names| ==> GetIndex(names, parse, Int(i)) == Success(i)
    ensures -|names| <= i < 0 ==> GetIndex(names, parse, Int(i)) == Success(|names| + i)
    ensures !(-|names| <= i < |names|) ==> GetIndex(names, parse, Int(i)) == Failure(InputError(NOT_FOUND))
  {
  }

  /** A string the parser reads as a number is treated as that number. */
  lemma NumericStringIsNumber(names: seq<string>, parse: Parser, s: string)
    requires parse(s).Some?
    ensures GetIndex(names, parse, Str(s)) == GetIndex(names, parse, Int(parse(s).value))
  {
  }

  /** A non-empty list resolves by its first element alone, as that element does unless it is a list itself. */
  lemma ListUsesFirst(names: seq<string>, parse: Parser, first: Value, rest: seq<Value>)
    ensures GetIndex(names, parse, List([first] + rest)) == GetIndex(names, parse, List([first]))
    ensures !first.List? ==> GetIndex(names, parse, List([first] + rest)) == GetIndex(names, parse, first)
    ensures first.List? ==> GetIndex(names, parse, List([first] + rest)) == Failure(TypeError)
  {
    assert ([first] + rest)[0] == first;
  }

  // ---------------------------------------------------------------------
  // Properties of insertion.

  /** Insertion keeps the registry's names non-empty, non-numeric and distinct. */
  lemma InsertKeepsWellFormed(names: seq<string>, parse: Parser, n: string)
    requires WellFormed(names, parse)
    requires InsertName(names, parse, n).Success?
    ensures WellFormed(InsertName(names, parse, n).value, parse)
  {
    var r := names + [n];
    forall i, j | 0 <= i < j < |r|
      ensures r[i] != r[j]
    {
      if j == |names| {
        assert r[i] in names;
      }
    }
  }

  /** After inserting `n` into a registry of size k, `n` is at k, by name and as index -1. */
  lemma InsertThenAddress(names: seq<string>, parse: Parser, n: string)
    requires WellFormed(names, parse)
    requires InsertName(names, parse, n).Success?
    ensures var r := InsertName(names, parse, n).value;
      && IndexOf(r, n) == Success(|names|)
      && GetIndex(r, parse, Str(n)) == Success(|names|)
      && GetIndex(r, parse, Int(-1)) == Success(|names|)
      && GetGroup(r, parse, Int(-1)) == Success(n)
  {
    var r := names + [n];
    InsertKeepsWellFormed(names, parse, n);
    NameResolves(r, parse, |names|);
    assert r[|names|] == n;
  }

  /** The seeded registry holds the default group alone, at index 0. */
  lemma SeedIsDefault(parse: Parser)
    requires parse(DEFAULT_GROUP).None?
    ensures InsertName([], parse, DEFAULT_GROUP) == Success([DEFAULT_GROUP])
    ensures IndexOf([DEFAULT_GROUP], DEFAULT_GROUP) == Success(0)
    ensures GetIndex([DEFAULT_GROUP], parse, Int(0)) == Success(0)
    ensures WellFormed([DEFAULT_GROUP], parse)
  {
    assert [] + [DEFAULT_GROUP] == [DEFAULT_GROUP];
    assert [DEFAULT_GROUP][0] == DEFAULT_GROUP;
  }

  // ---------------------------------------------------------------------

  /** `cg_list_hack`, the vector of groups, with the operations that change it or walk it. */
  class Registry {
    var names: seq<string>
    const parse: Parser

    constructor (p: Parser)
      ensures names == [] && parse == p
    {
      names := [];
      parse := p;
    }

    /** `apply_cg_insert`: append a validated name; a rejected one leaves the registry as it was. */
    method Insert(n: string) returns (r: Result<(), Error>)
      modifies this
      ensures r.Success? <==> InsertName(old(names), parse, n).Success?
      ensures r.Failure? ==> r.error == InsertName(old(names), parse, n).error && names == old(names)
      ensures r.Success? ==> names == old(names) + [n]
    {
      if parse(n).Some? {
        return Failure(InputError(VALUE_NAME));
      }
      if n == "" || FindName(names, n).Some? {
        return Failure(InputError(DUPLICATE));
      }
      names := names + [n];
      r := Success(());
    }

    /** Startup: the registry is seeded with the default group. */
    method Seed() returns (r: Result<(), Error>)
      modifies this
      ensures r.Success? <==> InsertName(old(names), parse, DEFAULT_GROUP).Success?
      ensures r.Success? ==> names == old(names) + [DEFAULT_GROUP]
      ensures r.Failure? ==> names == old(names)
    {
      r := Insert(DEFAULT_GROUP);
    }

    /** `apply_cg_list`: the names, in registry order, as a list of strings. */
    method List() returns (r: seq<Value>)
      ensures |r| == |names|
      ensures forall i :: 0 <= i < |r| ==> r[i] == Str(names[i])
    {
      r := [];
      var i := 0;
      while i < |names|
        invariant 0 <= i <= |names|
        invariant |r| == i
        invariant forall j :: 0 <= j < i ==> r[j] == Str(names[j])
      {
        r := r + [Str(names[i])];
        i := i + 1;
      }
    }

    /** `cleanup_command_groups`: pop groups off the back until none is left. */
    method Cleanup()
      modifies this
      ensures names == []
    {
      while |names| > 0
        invariant names == old(names)[..|names|]
        decreases |names|
      {
        names := names[..|names| - 1];
      }
    }
  }
}

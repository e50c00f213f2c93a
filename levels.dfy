/**
 * The table of level names (logger.go, `Levels`), as declared, and the
 * case-insensitive lookup `InitLogger` performs on `Config.Level`,
 * falling back to `info` for every name the table does not hold.
 */
module Levels {

  /** The zerolog levels the table can produce. */
  datatype Level = Debug | Info | Warn | Error | Fatal | Panic | Disabled

  /** The key under which each level appears in the table. */
  function Name(l: Level): string
  {
    match l
    case Debug => "debug"
    case Info => "info"
    case Warn => "warn"
    case Error => "error"
    case Fatal => "fatal"
    case Panic => "panic"
    case Disabled => "disabled"
  }

  /** The `Levels` map. */
  const Table: map<string, Level> := map[
    "debug" := Debug,
    "info" := Info,
    "warn" := Warn,
    "error" := Error,
    "fatal" := Fatal,
    "panic" := Panic,
    "disabled" := Disabled
  ]

  /** The table holds exactly the seven names, each mapped to its own level. */
  lemma TableIsNames()
    ensures forall l :: Name(l) in Table && Table[Name(l)] == l
    ensures forall k :: k in Table ==> Name(Table[k]) == k
  {
    forall l ensures Name(l) in Table && Table[Name(l)] == l {
      match l
      case Debug =>
      case Info =>
      case Warn =>
      case Error =>
      case Fatal =>
      case Panic =>
      case Disabled =>
    }
  }

  /** Lower-casing of one character: ASCII upper-case letters only. */
  function LowerChar(c: char): char
  {
    if 'A' <= c <= 'Z' then (c as int - 'A' as int + 'a' as int) as char else c
  }

  /** `strings.ToLower`, character by character. */
  function ToLower(s: string): (r: string)
    ensures |r| == |s|
    ensures forall i :: 0 <= i < |s| ==> r[i] == LowerChar(s[i])
  {
    if s == [] then [] else [LowerChar(s[0])] + ToLower(s[1..])
  }

  /** Two names that differ at most in the case of their letters. */
  predicate EqualsIgnoringCase(a: string, b: string)
  {
    |a| == |b| && forall i :: 0 <= i < |a| ==> LowerChar(a[i]) == LowerChar(b[i])
  }

  /** The level `InitLogger` selects for a configured name. */
  function Lookup(name: string): Level
  {
    var key := ToLower(name);
    if key in Table then Table[key] else Info
  }

  /** Every table name is already lower case. */
  lemma NameIsLowerCase(l: Level)
    ensures ToLower(Name(l)) == Name(l)
  {
    var n := Name(l);
    assert forall i :: 0 <= i < |n| ==> 'a' <= n[i] <= 'z';
  }

  /** A name equal to a level's table key up to case selects that level. */
  lemma LookupIgnoresCase(name: string, l: Level)
    requires EqualsIgnoringCase(name, Name(l))
    ensures Lookup(name) == l
  {
    NameIsLowerCase(l);
    var key := ToLower(name);
    assert key == ToLower(Name(l));
    TableIsNames();
  }

  /** A level other than the fallback is only ever selected by its own name, up to case. */
  lemma LookupFound(name: string)
    requires Lookup(name) != Info
    ensures EqualsIgnoringCase(name, Name(Lookup(name)))
  {
    var key := ToLower(name);
    TableIsNames();
    assert key in Table;
    assert Name(Table[key]) == key;
  }

  /**
   * The lookup in full: a name selects level `l` exactly when it is `l`'s
   * table key up to case, or when `l` is `info` and the name matches no
   * table key in any case.
   */
  lemma LookupSelects(name: string, l: Level)
    ensures Lookup(name) == l <==>
      EqualsIgnoringCase(name, Name(l)) ||
      (l == Info && forall m :: !EqualsIgnoringCase(name, Name(m)))
  {
    if EqualsIgnoringCase(name, Name(l)) {
      LookupIgnoresCase(name, l);
    } else if exists m :: EqualsIgnoringCase(name, Name(m)) {
      var m :| EqualsIgnoringCase(name, Name(m));
      LookupIgnoresCase(name, m);
    } else if Lookup(name) != Info {
      LookupFound(name);
    }
  }

  /** The empty name is not a level name, so it selects `info`. */
  lemma LookupEmpty()
    ensures Lookup("") == Info
  {
    assert ToLower("") == "";
    TableIsNames();
    assert "" !in Table;
  }
}

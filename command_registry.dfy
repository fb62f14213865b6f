/** The command table and the argument parser of the command line
    (src/core/commandRegistry.ts). The registry's `Map` is kept as its
    insertion-ordered key list plus the key-to-command table. */
module CommandRegistry {
  import opened Wrappers

  /** A registered command; `handler` identifies its action, which is code
      outside this model. */
  datatype Command = Command(name: string, description: Option<string>, alias: Option<string>, handler: nat)

  /** `if (command.alias)`: an absent or empty alias registers nothing. */
  predicate HasAlias(c: Command)
  {
    c.alias.Some? && c.alias.value != ""
  }

  predicate NoDup(ks: seq<string>)
  {
    forall i, j :: 0 <= i < j < |ks| ==> ks[i] != ks[j]
  }

  /** Key order of a `Map` after `set(k, …)`: a new key goes last, a present
      key keeps its place. */
  function AddKey(ks: seq<string>, k: string): (r: seq<string>)
    ensures forall x :: x in r <==> x in ks || x == k
    ensures ks <= r
    ensures NoDup(ks) ==> NoDup(r)
  {
    if k in ks then ks else ks + [k]
  }

  /** The table's values in key order, as `commands.values()` yields them. */
  function ValuesOf(ks: seq<string>, table: map<string, Command>): (vs: seq<Command>)
    requires forall k :: k in ks ==> k in table
    ensures |vs| == |ks|
    ensures forall i :: 0 <= i < |ks| ==> vs[i] == table[ks[i]]
  {
    if |ks| == 0 then [] else ValuesOf(ks[..|ks| - 1], table) + [table[ks[|ks| - 1]]]
  }

  function NamesOf(cs: seq<Command>): set<string>
  {
    set c | c in cs :: c.name
  }

  lemma NamesOfSnoc(cs: seq<Command>, c: Command)
    ensures NamesOf(cs + [c]) == NamesOf(cs) + {c.name}
  {
    assert forall x :: x in cs + [c] <==> x in cs || x == c;
  }

  /** Reference for `getAllCommands`: the commands of `vs` in order, keeping
      only the first command of each name. */
  function FirstOfEachName(vs: seq<Command>): seq<Command>
  {
    if |vs| == 0 then []
    else
      var d := FirstOfEachName(vs[..|vs| - 1]);
      if vs[|vs| - 1].name in NamesOf(d) then d else d + [vs[|vs| - 1]]
  }

  /** One more value extends the listing of a prefix by that value exactly
      when its name is new. */
  lemma FirstOfEachNameStep(vs: seq<Command>, i: nat)
    requires i < |vs|
    ensures var d := FirstOfEachName(vs[..i]);
      FirstOfEachName(vs[..i + 1]) == if vs[i].name in NamesOf(d) then d else d + [vs[i]]
  {
    assert vs[..i + 1][..i] == vs[..i];
  }

  /** The listing has every name of `vs` once, and only commands of `vs`. */
  lemma {:induction false} FirstOfEachNameSpec(vs: seq<Command>)
    ensures NamesOf(FirstOfEachName(vs)) == NamesOf(vs)
    ensures forall i, j :: 0 <= i < j < |FirstOfEachName(vs)| ==> FirstOfEachName(vs)[i].name != FirstOfEachName(vs)[j].name
    ensures forall c :: c in FirstOfEachName(vs) ==> c in vs
  {
    if |vs| > 0 {
      var front := vs[..|vs| - 1];
      var last := vs[|vs| - 1];
      assert vs == front + [last];
      FirstOfEachNameSpec(front);
      NamesOfSnoc(front, last);
      var d := FirstOfEachName(front);
      if last.name !in NamesOf(d) {
        NamesOfSnoc(d, last);
      }
    }
  }

  /** Each listed command is the first of its name among `vs`. */
  lemma {:induction false} FirstOfEachNameKeepsFirst(vs: seq<Command>, c: Command)
    requires c in FirstOfEachName(vs)
    ensures exists j :: 0 <= j < |vs| && vs[j] == c && forall m :: 0 <= m < j ==> vs[m].name != c.name
  {
    var front := vs[..|vs| - 1];
    var last := vs[|vs| - 1];
    assert vs == front + [last];
    var d := FirstOfEachName(front);
    if c in d {
      FirstOfEachNameKeepsFirst(front, c);
      var j :| 0 <= j < |front| && front[j] == c && forall m :: 0 <= m < j ==> front[m].name != c.name;
      assert vs[j] == c;
    } else {
      assert c == last && last.name !in NamesOf(d);
      FirstOfEachNameSpec(front);
      forall m | 0 <= m < |vs| - 1
        ensures vs[m].name != c.name
      {
        assert vs[m] == front[m] && front[m].name in NamesOf(front);
      }
    }
  }

  /** The listing names every registered command and lists only registered ones. */
  lemma ListingCoversTable(keys: seq<string>, table: map<string, Command>)
    requires forall k :: k in table <==> k in keys
    ensures var r := FirstOfEachName(ValuesOf(keys, table));
      && (forall k :: k in table ==> table[k].name in NamesOf(r))
      && (forall c :: c in r ==> exists k :: k in keys && table[k] == c)
  {
    var vs := ValuesOf(keys, table);
    var r := FirstOfEachName(vs);
    FirstOfEachNameSpec(vs);
    forall k | k in table
      ensures table[k].name in NamesOf(r)
    {
      var n :| 0 <= n < |keys| && keys[n] == k;
      assert vs[n] == table[k] && vs[n] in vs;
    }
    forall c | c in r
      ensures exists k :: k in keys && table[k] == c
    {
      var n :| 0 <= n < |vs| && vs[n] == c;
      assert keys[n] in keys && table[keys[n]] == c;
    }
  }

  /** `arg.startsWith("--") || arg.startsWith("-")`: the first test implies
      the second, so this is "starts with a dash". */
  predicate IsFlag(s: string)
  {
    |s| > 0 && s[0] == '-'
  }

  /** `nextArg && !nextArg.startsWith("-")`. */
  predicate TakesValue(s: string)
  {
    |s| > 0 && s[0] != '-'
  }

  /** `arg.replace(/^-+/, "")`: the argument without its leading dashes. */
  function StripDashes(s: string): (r: string)
    ensures |r| <= |s| && r == s[|s| - |r|..]
    ensures forall i :: 0 <= i < |s| - |r| ==> s[i] == '-'
    ensures r == "" || r[0] != '-'
    decreases |s|
  {
    if |s| > 0 && s[0] == '-' then StripDashes(s[1..]) else s
  }

  /** The value of an option: `true`, or the following argument. */
  datatype OptionValue = Switch | Text(value: string)

  datatype Parsed = Parsed(command: Option<string>, args: seq<string>, options: map<string, OptionValue>)

  /** `argv[0]` is the runtime and `argv[1]` the script. */
  const FirstUserArg: nat := 2

  /** What the flag at `i` records. */
  function OptionAt(t: seq<string>, i: nat): OptionValue
    requires i < |t|
  {
    if i + 1 < |t| && TakesValue(t[i + 1]) then Text(t[i + 1]) else Switch
  }

  /** The parser's scan from index `k`, with what it has collected so far. */
  function ScanFrom(t: seq<string>, k: nat, args: seq<string>, opts: map<string, OptionValue>)
    : (seq<string>, map<string, OptionValue>)
    decreases |t| - k
  {
    if k >= |t| then (args, opts)
    else if IsFlag(t[k]) then
      var next := if k + 1 < |t| && TakesValue(t[k + 1]) then k + 2 else k + 1;
      ScanFrom(t, next, args, opts[StripDashes(t[k]) := OptionAt(t, k)])
    else ScanFrom(t, k + 1, args + [t[k]], opts)
  }

  /** The argument at `i` is consumed as the value of the flag before it. */
  predicate IsValueAt(t: seq<string>, i: nat)
    requires i < |t|
  {
    i > FirstUserArg && IsFlag(t[i - 1]) && TakesValue(t[i])
  }

  /** The argument at `i` is a positional argument: no flag and no flag's value. */
  predicate IsPositionalAt(t: seq<string>, i: nat)
    requires i < |t|
  {
    !IsFlag(t[i]) && !IsValueAt(t, i)
  }

  /** The positional arguments from index `k` on, in order. */
  function PositionalsFrom(t: seq<string>, k: nat): seq<string>
    decreases |t| - k
  {
    if k >= |t| then [] else (if IsPositionalAt(t, k) then [t[k]] else []) + PositionalsFrom(t, k + 1)
  }

  predicate FlagFor(t: seq<string>, j: nat, key: string)
    requires j < |t|
  {
    IsFlag(t[j]) && StripDashes(t[j]) == key
  }

  /** Some flag at or after `k` names `key`. */
  predicate MentionedFrom(t: seq<string>, k: nat, key: string)
  {
    exists j :: k <= j < |t| && FlagFor(t, j, key)
  }

  /** The flag at `j` is the last one naming its key. */
  predicate LastFlag(t: seq<string>, j: nat)
    requires j < |t|
  {
    IsFlag(t[j]) && forall m :: j < m < |t| ==> !FlagFor(t, m, StripDashes(t[j]))
  }

  /** One step of the scan from `k`: where it goes next and what it adds. */
  function NextIndex(t: seq<string>, k: nat): nat
    requires k < |t|
  {
    if IsFlag(t[k]) && k + 1 < |t| && TakesValue(t[k + 1]) then k + 2 else k + 1
  }

  lemma ScanStep(t: seq<string>, k: nat, args: seq<string>, opts: map<string, OptionValue>)
    requires k < |t|
    ensures IsFlag(t[k]) ==>
      ScanFrom(t, k, args, opts) == ScanFrom(t, NextIndex(t, k), args, opts[StripDashes(t[k]) := OptionAt(t, k)])
    ensures !IsFlag(t[k]) ==> ScanFrom(t, k, args, opts) == ScanFrom(t, k + 1, args + [t[k]], opts)
  {
  }

  /** The positionals from `k` skip what the scan skips. */
  lemma PositionalsStep(t: seq<string>, k: nat)
    requires FirstUserArg <= k < |t| && !IsValueAt(t, k)
    ensures !IsFlag(t[k]) ==> PositionalsFrom(t, k) == [t[k]] + PositionalsFrom(t, k + 1)
    ensures IsFlag(t[k]) ==> PositionalsFrom(t, k) == PositionalsFrom(t, NextIndex(t, k))
  {
    if IsFlag(t[k]) {
      assert !IsPositionalAt(t, k);
      assert PositionalsFrom(t, k) == [] + PositionalsFrom(t, k + 1) == PositionalsFrom(t, k + 1);
      if k + 1 < |t| && TakesValue(t[k + 1]) {
        assert !IsPositionalAt(t, k + 1);
        assert PositionalsFrom(t, k + 1) == [] + PositionalsFrom(t, k + 2) == PositionalsFrom(t, k + 2);
      }
    }
  }

  /** The scan never resumes on a flag's value. */
  lemma NextIsNoValue(t: seq<string>, k: nat)
    requires k < |t|
    ensures NextIndex(t, k) < |t| ==> !IsValueAt(t, NextIndex(t, k))
  {
  }

  lemma {:induction false} ScanCollectsPositionals(t: seq<string>, k: nat, args: seq<string>, opts: map<string, OptionValue>)
    requires k >= FirstUserArg
    requires k < |t| ==> !IsValueAt(t, k)
    ensures ScanFrom(t, k, args, opts).0 == args + PositionalsFrom(t, k)
    decreases |t| - k
  {
    if k < |t| {
      ScanStep(t, k, args, opts);
      PositionalsStep(t, k);
      NextIsNoValue(t, k);
      var next := NextIndex(t, k);
      if IsFlag(t[k]) {
        ScanCollectsPositionals(t, next, args, opts[StripDashes(t[k]) := OptionAt(t, k)]);
      } else {
        ScanCollectsPositionals(t, next, args + [t[k]], opts);
        assert args + [t[k]] + PositionalsFrom(t, next) == args + ([t[k]] + PositionalsFrom(t, next));
      }
    }
  }

  /** A key is mentioned from `k` when the flag at `k` names it or a flag
      from the scan's next index does: the skipped value is no flag. */
  lemma MentionStep(t: seq<string>, k: nat, key: string)
    requires k < |t|
    ensures MentionedFrom(t, k, key) <==> FlagFor(t, k, key) || MentionedFrom(t, NextIndex(t, k), key)
  {
    var next := NextIndex(t, k);
    if MentionedFrom(t, k, key) {
      var j :| k <= j < |t| && FlagFor(t, j, key);
      if j != k {
        assert next <= j;
      }
    }
    if MentionedFrom(t, next, key) {
      var j :| next <= j < |t| && FlagFor(t, j, key);
      assert k <= j;
    }
  }

  /** The scan's option keys: the keys it started with and every flag name
      from `k` on. */
  lemma {:induction false} ScanOptionKeys(t: seq<string>, k: nat, args: seq<string>, opts: map<string, OptionValue>)
    ensures forall key :: key in ScanFrom(t, k, args, opts).1 <==> key in opts || MentionedFrom(t, k, key)
    decreases |t| - k
  {
    if k < |t| {
      var next := NextIndex(t, k);
      var args', opts' := if IsFlag(t[k]) then args else args + [t[k]],
                          if IsFlag(t[k]) then opts[StripDashes(t[k]) := OptionAt(t, k)] else opts;
      ScanStep(t, k, args, opts);
      ScanOptionKeys(t, next, args', opts');
      forall key
        ensures key in ScanFrom(t, k, args, opts).1 <==> key in opts || MentionedFrom(t, k, key)
      {
        MentionStep(t, k, key);
      }
    }
  }

  /** A key that no flag from `k` on names keeps the value it started with. */
  lemma {:induction false} ScanKeepsUnnamed(t: seq<string>, k: nat, args: seq<string>, opts: map<string, OptionValue>)
    ensures forall key :: key in opts && !MentionedFrom(t, k, key) ==>
      key in ScanFrom(t, k, args, opts).1 && ScanFrom(t, k, args, opts).1[key] == opts[key]
    decreases |t| - k
  {
    if k < |t| {
      var next := NextIndex(t, k);
      var args', opts' := if IsFlag(t[k]) then args else args + [t[k]],
                          if IsFlag(t[k]) then opts[StripDashes(t[k]) := OptionAt(t, k)] else opts;
      ScanStep(t, k, args, opts);
      ScanKeepsUnnamed(t, next, args', opts');
      forall key | key in opts && !MentionedFrom(t, k, key)
        ensures key in ScanFrom(t, k, args, opts).1 && ScanFrom(t, k, args, opts).1[key] == opts[key]
      {
        MentionStep(t, k, key);
      }
    }
  }

  /** The last flag of each name from `k` on decides that key's value. */
  lemma {:induction false} ScanCollectsOptions(t: seq<string>, k: nat, args: seq<string>, opts: map<string, OptionValue>)
    ensures forall j :: k <= j < |t| && LastFlag(t, j) ==>
      StripDashes(t[j]) in ScanFrom(t, k, args, opts).1 && ScanFrom(t, k, args, opts).1[StripDashes(t[j])] == OptionAt(t, j)
    decreases |t| - k
  {
    if k < |t| {
      var next := NextIndex(t, k);
      var args', opts' := if IsFlag(t[k]) then args else args + [t[k]],
                          if IsFlag(t[k]) then opts[StripDashes(t[k]) := OptionAt(t, k)] else opts;
      ScanStep(t, k, args, opts);
      ScanCollectsOptions(t, next, args', opts');
      forall j | k <= j < |t| && LastFlag(t, j)
        ensures StripDashes(t[j]) in ScanFrom(t, k, args, opts).1
        ensures ScanFrom(t, k, args, opts).1[StripDashes(t[j])] == OptionAt(t, j)
      {
        if j == k {
          ScanKeepsUnnamed(t, next, args', opts');
          assert !MentionedFrom(t, next, StripDashes(t[k]));
        } else {
          assert next <= j;
        }
      }
    }
  }

  /** The positional arguments of a command line. */
  function Positionals(argv: seq<string>): seq<string>
  {
    PositionalsFrom(argv, FirstUserArg)
  }

  class Registry {
    var keys: seq<string>
    var table: map<string, Command>

    /** The key list is the table's key set without repeats, and each command
        is filed under its name or its alias. */
    ghost predicate Valid()
      reads this
    {
      && NoDup(keys)
      && (forall k :: k in table <==> k in keys)
      && (forall k :: k in table ==> table[k].name == k || table[k].alias == Some(k))
    }

    constructor ()
      ensures Valid() && keys == [] && table == map[]
    {
      keys := [];
      table := map[];
    }

    /** `getCommand`: the command filed under a name or alias. */
    function GetCommand(name: string): (r: Option<Command>)
      reads this
      requires Valid()
      ensures r.Some? <==> name in keys
      ensures r.Some? ==> r.value.name == name || r.value.alias == Some(name)
    {
      if name in table then Some(table[name]) else None
    }

    /** `register`: file the command under its name, then under its alias when
        it has one; a later registration of the same key replaces the command
        but keeps the key's place. */
    method Register(c: Command)
      requires Valid()
      modifies this
      ensures Valid()
      ensures table == if HasAlias(c) then old(table)[c.name := c][c.alias.value := c] else old(table)[c.name := c]
      ensures keys == if HasAlias(c) then AddKey(AddKey(old(keys), c.name), c.alias.value) else AddKey(old(keys), c.name)
      ensures old(keys) <= keys
      ensures GetCommand(c.name) == Some(c)
      ensures HasAlias(c) ==> GetCommand(c.alias.value) == Some(c)
      ensures forall k :: k != c.name && (HasAlias(c) ==> k != c.alias.value) ==> GetCommand(k) == old(GetCommand(k))
    {
      table := table[c.name := c];
      keys := AddKey(keys, c.name);
      if HasAlias(c) {
        table := table[c.alias.value := c];
        keys := AddKey(keys, c.alias.value);
      }
    }

    /** `getAllCommands`: walk the table's values in key order and keep the
        first command of each name, so a command registered with an alias is
        listed once. */
    method GetAllCommands() returns (result: seq<Command>)
      requires Valid()
      ensures result == FirstOfEachName(ValuesOf(keys, table))
      ensures forall i, j :: 0 <= i < j < |result| ==> result[i].name != result[j].name
      ensures forall k :: k in table ==> table[k].name in NamesOf(result)
      ensures forall c :: c in result ==> exists k :: k in keys && table[k] == c
    {
      var vs := ValuesOf(keys, table);
      var seen: set<string> := {};
      result := [];
      var i := 0;
      while i < |vs|
        invariant 0 <= i <= |vs|
        invariant result == FirstOfEachName(vs[..i])
        invariant seen == NamesOf(result)
      {
        FirstOfEachNameStep(vs, i);
        if vs[i].name !in seen {
          NamesOfSnoc(result, vs[i]);
          seen := seen + {vs[i].name};
          result := result + [vs[i]];
        }
        i := i + 1;
      }
      assert vs[..i] == vs;
      FirstOfEachNameSpec(vs);
      ListingCoversTable(keys, table);
    }

    /** `parseArgs`: scan the arguments after the script; a dashed argument
        is an option whose value is the next argument when that one is
        non-empty and undashed (and is then skipped), `true` otherwise; other
        arguments are positional, the first of them naming the command. */
    method ParseArgs(argv: seq<string>) returns (r: Parsed)
      ensures var ps := Positionals(argv);
        && (ps == [] ==> r.command == None && r.args == [])
        && (ps != [] ==> r.command == Some(ps[0]) && r.args == ps[1..])
      ensures forall key :: key in r.options <==> MentionedFrom(argv, FirstUserArg, key)
      ensures forall i :: FirstUserArg <= i < |argv| && LastFlag(argv, i) ==>
        StripDashes(argv[i]) in r.options && r.options[StripDashes(argv[i])] == OptionAt(argv, i)
    {
      var args: seq<string> := [];
      var options: map<string, OptionValue> := map[];
      var i := FirstUserArg;
      while i < |argv|
        invariant FirstUserArg <= i
        invariant ScanFrom(argv, i, args, options) == ScanFrom(argv, FirstUserArg, [], map[])
        decreases |argv| - i
      {
        var arg := argv[i];
        if IsFlag(arg) {
          var key := StripDashes(arg);
          if i + 1 < |argv| && TakesValue(argv[i + 1]) {
            options := options[key := Text(argv[i + 1])];
            i := i + 1;
          } else {
            options := options[key := Switch];
          }
        } else {
          args := args + [arg];
        }
        i := i + 1;
      }
      ScanCollectsPositionals(argv, FirstUserArg, [], map[]);
      ScanOptionKeys(argv, FirstUserArg, [], map[]);
      ScanCollectsOptions(argv, FirstUserArg, [], map[]);
      if args == [] {
        r := Parsed(None, [], options);
      } else {
        r := Parsed(Some(args[0]), args[1..], options);
      }
    }
  }
}

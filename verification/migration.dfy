/** The pure parts of scripts/migrate-notion-to-d1.js: reading the command
    line, counting what a fetched record map holds, and naming the backup
    file. Fetching, importing, writing files and exiting are left to the
    caller. */
module Migration {
  import opened Options
  import opened Strings

  /** The options the script runs with. */
  datatype CliArgs = CliArgs(tenantId: string, notionPageId: string)

  /** Before any argument is read. */
  const Defaults: CliArgs := CliArgs("default", "")

  const TenantFlag: string := "--tenant-id="
  const NotionFlag: string := "--notion-id="

  /** The value of a `--flag=value` argument: `arg.split('=')[1]`. */
  function FlagValue(arg: string, flag: string): (v: string)
    requires StartsWith(arg, flag) && |flag| > 0 && flag[|flag| - 1] == '=' && '=' !in flag[..|flag| - 1]
    ensures var rest := arg[|flag|..];
            && StartsWith(rest, v)
            && '=' !in v
            && (|v| == |rest| || rest[|v|] == '=')
  {
    var name := flag[..|flag| - 1];
    var rest := arg[|flag|..];
    assert arg == name + ['='] + rest by {
      assert arg == arg[..|flag|] + rest;
      assert flag == name + ['='];
    }
    SplitAfterFirst(name, '=', rest);
    SplitFirstField(rest, '=');
    Split(arg, '=')[1]
  }

  /** One argument of the `forEach`: a recognised flag replaces its option. */
  function ApplyArg(acc: CliArgs, arg: string): CliArgs {
    var acc1 := if StartsWith(arg, TenantFlag) then acc.(tenantId := FlagValue(arg, TenantFlag)) else acc;
    if StartsWith(arg, NotionFlag) then acc1.(notionPageId := FlagValue(arg, NotionFlag)) else acc1
  }

  /** The options after reading `args` left to right. */
  function ApplyArgs(acc: CliArgs, args: seq<string>): CliArgs
    decreases |args|
  {
    if |args| == 0 then acc else ApplyArgs(ApplyArg(acc, args[0]), args[1..])
  }

  /** How argument parsing ends: with options to run, or with an exit code. */
  datatype Parsed = Run(options: CliArgs) | Exit(code: int)

  /** The script's argument handling for `process.argv.slice(2)`: an empty
      Notion page id stops it with exit code 1. */
  function ParseArgs(args: seq<string>): (p: Parsed)
    ensures p.Exit? <==> ApplyArgs(Defaults, args).notionPageId == ""
    ensures p.Exit? ==> p.code == 1
    ensures p.Run? ==> p.options == ApplyArgs(Defaults, args) && p.options.notionPageId != ""
  {
    var options := ApplyArgs(Defaults, args);
    if options.notionPageId == "" then Exit(1) else Run(options)
  }

  /** The last argument carrying `flag`, if any: an independent, right-to-left
      reading of which argument decides. */
  function LastWithFlag(args: seq<string>, flag: string): (a: Option<string>)
    ensures a.Some? ==> StartsWith(a.value, flag) && a.value in args
    decreases |args|
  {
    if |args| == 0 then None
    else if StartsWith(args[|args| - 1], flag) then Some(args[|args| - 1])
    else LastWithFlag(args[..|args| - 1], flag)
  }

  /** Reading one more argument after `args`. */
  lemma {:induction false} ApplyArgsSnoc(acc: CliArgs, args: seq<string>, arg: string)
    ensures ApplyArgs(acc, args + [arg]) == ApplyArg(ApplyArgs(acc, args), arg)
    decreases |args|
  {
    if |args| > 0 {
      assert (args + [arg])[1..] == args[1..] + [arg];
      ApplyArgsSnoc(ApplyArg(acc, args[0]), args[1..], arg);
    }
  }

  /** The last `--tenant-id=` and the last `--notion-id=` win; without one
      the default stays. */
  lemma {:induction false} LastFlagWins(args: seq<string>)
    ensures ApplyArgs(Defaults, args).tenantId ==
              (match LastWithFlag(args, TenantFlag)
               case Some(a) => FlagValue(a, TenantFlag)
               case None => Defaults.tenantId)
    ensures ApplyArgs(Defaults, args).notionPageId ==
              (match LastWithFlag(args, NotionFlag)
               case Some(a) => FlagValue(a, NotionFlag)
               case None => Defaults.notionPageId)
    decreases |args|
  {
    if |args| > 0 {
      var init, last := args[..|args| - 1], args[|args| - 1];
      assert args == init + [last];
      ApplyArgsSnoc(Defaults, init, last);
      LastFlagWins(init);
    }
  }

  /** A block of `recordMap.block`, reduced to `block.value?.type`: `None`
      when the block has no value, `""` for a falsy type. */
  datatype Block = Block(value: Option<BlockValue>)
  datatype BlockValue = BlockValue(blockType: string)

  /** `recordMap` of a fetched page. Each table that is present is given by
      its entries (blocks, in key order) or its keys (collections, views). */
  datatype RecordMap = RecordMap(
    block: Option<seq<Block>>,
    collection: Option<set<string>>,
    collectionView: Option<set<string>>)

  /** The statistics `analyzeData` prints; `types` lists each block type
      once, with its count. */
  datatype Stats = Stats(blocks: nat, collections: nat, collectionViews: nat, pages: nat,
                         types: seq<(string, nat)>)

  /** The type a block is tallied under, `""` when it is not tallied. */
  function TypeOf(b: Block): string {
    match b.value
    case Some(v) => v.blockType
    case None => ""
  }

  /** How many blocks have type `t`. */
  function Occurrences(blocks: seq<Block>, t: string): nat
    decreases |blocks|
  {
    if |blocks| == 0 then 0
    else Occurrences(blocks[..|blocks| - 1], t) + (if TypeOf(blocks[|blocks| - 1]) == t then 1 else 0)
  }

  /** How many blocks have a truthy type. */
  function Typed(blocks: seq<Block>): (n: nat)
    ensures n <= |blocks|
    decreases |blocks|
  {
    if |blocks| == 0 then 0
    else Typed(blocks[..|blocks| - 1]) + (if TypeOf(blocks[|blocks| - 1]) != "" then 1 else 0)
  }

  /** `types[t] || 0`. */
  function CountOf(types: seq<(string, nat)>, t: string): nat
    decreases |types|
  {
    if |types| == 0 then 0
    else if types[0].0 == t then types[0].1
    else CountOf(types[1..], t)
  }

  /** The sum of all counts. */
  function Total(types: seq<(string, nat)>): nat
    decreases |types|
  {
    if |types| == 0 then 0 else types[0].1 + Total(types[1..])
  }

  /** No type is listed twice, and every listed count is positive. */
  predicate WellFormed(types: seq<(string, nat)>) {
    && (forall i, j :: 0 <= i < j < |types| ==> types[i].0 != types[j].0)
    && (forall i :: 0 <= i < |types| ==> types[i].1 > 0)
  }

  /** `types[t] = (types[t] || 0) + 1`: an existing entry is incremented in
      place, a new type is appended with count 1. */
  function Bump(types: seq<(string, nat)>, t: string): (r: seq<(string, nat)>)
    requires WellFormed(types)
    ensures WellFormed(r)
    ensures |r| == |types| || (|r| == |types| + 1 && r[|types|] == (t, 1))
    ensures forall i :: 0 <= i < |types| ==> r[i].0 == types[i].0
    decreases |types|
  {
    if |types| == 0 then [(t, 1)]
    else if types[0].0 == t then [(t, types[0].1 + 1)] + types[1..]
    else
      var tail := Bump(types[1..], t);
      var r := [types[0]] + tail;
      assert r[1..] == tail;
      r
  }

  /** Bumping `t` adds one to `t`'s count and changes no other count. */
  lemma {:induction false} BumpCount(types: seq<(string, nat)>, t: string, u: string)
    requires WellFormed(types)
    ensures CountOf(Bump(types, t), u) == CountOf(types, u) + (if u == t then 1 else 0)
    decreases |types|
  {
    var r := Bump(types, t);
    if |types| == 0 {
    } else if types[0].0 == t {
      assert r[1..] == types[1..];
      CountAbsent(types[1..], t);
    } else {
      assert r[1..] == Bump(types[1..], t);
      BumpCount(types[1..], t, u);
    }
  }

  /** Bumping adds one to the total. */
  lemma {:induction false} BumpTotal(types: seq<(string, nat)>, t: string)
    requires WellFormed(types)
    ensures Total(Bump(types, t)) == Total(types) + 1
    decreases |types|
  {
    var r := Bump(types, t);
    if |types| == 0 {
    } else if types[0].0 == t {
      assert r[1..] == types[1..];
    } else {
      assert r[1..] == Bump(types[1..], t);
      BumpTotal(types[1..], t);
    }
  }

  /** A type not listed counts zero. */
  lemma CountAbsent(types: seq<(string, nat)>, t: string)
    requires forall i :: 0 <= i < |types| ==> types[i].0 != t
    ensures CountOf(types, t) == 0
    decreases |types|
  {
    if |types| > 0 {
      CountAbsent(types[1..], t);
    }
  }

  /** Counting one more block of a prefix. */
  lemma PrefixStep(blocks: seq<Block>, i: nat)
    requires i < |blocks|
    ensures forall t :: Occurrences(blocks[..i + 1], t) ==
                          Occurrences(blocks[..i], t) + (if TypeOf(blocks[i]) == t then 1 else 0)
    ensures Typed(blocks[..i + 1]) == Typed(blocks[..i]) + (if TypeOf(blocks[i]) != "" then 1 else 0)
  {
    assert blocks[..i + 1][..i] == blocks[..i];
  }

  /** `analyzeData`. The `forEach` over the blocks tallies every block with
      a truthy type and, separately, counts pages. */
  method AnalyzeData(recordMap: Option<RecordMap>) returns (stats: Stats)
    ensures recordMap.None? || recordMap.value.block.None? ==>
              stats.blocks == 0 && stats.pages == 0 && stats.types == []
    ensures recordMap.Some? && recordMap.value.block.Some? ==>
              var blocks := recordMap.value.block.value;
              && stats.blocks == |blocks|
              && (forall t :: CountOf(stats.types, t) == (if t == "" then 0 else Occurrences(blocks, t)))
              && Total(stats.types) == Typed(blocks)
              && stats.pages == Occurrences(blocks, "page")
    ensures WellFormed(stats.types)
    ensures Total(stats.types) <= stats.blocks
    ensures stats.pages == CountOf(stats.types, "page")
    ensures stats.collections == (if recordMap.Some? && recordMap.value.collection.Some?
                                  then |recordMap.value.collection.value| else 0)
    ensures stats.collectionViews == (if recordMap.Some? && recordMap.value.collectionView.Some?
                                      then |recordMap.value.collectionView.value| else 0)
  {
    stats := Stats(0, 0, 0, 0, []);
    if recordMap.Some? && recordMap.value.block.Some? {
      var blocks := recordMap.value.block.value;
      stats := stats.(blocks := |blocks|);
      var i := 0;
      while i < |blocks|
        invariant 0 <= i <= |blocks|
        invariant stats.blocks == |blocks| && stats.collections == 0 && stats.collectionViews == 0
        invariant WellFormed(stats.types)
        invariant forall t :: CountOf(stats.types, t) == (if t == "" then 0 else Occurrences(blocks[..i], t))
        invariant Total(stats.types) == Typed(blocks[..i])
        invariant stats.pages == Occurrences(blocks[..i], "page")
      {
        PrefixStep(blocks, i);
        var t := TypeOf(blocks[i]);
        if t != "" {
          forall u {
            BumpCount(stats.types, t, u);
          }
          BumpTotal(stats.types, t);
          stats := stats.(types := Bump(stats.types, t));
          if t == "page" {
            stats := stats.(pages := stats.pages + 1);
          }
        }
        i := i + 1;
      }
      assert blocks[..i] == blocks;
    }
    if recordMap.Some? && recordMap.value.collection.Some? {
      stats := stats.(collections := |recordMap.value.collection.value|);
    }
    if recordMap.Some? && recordMap.value.collectionView.Some? {
      stats := stats.(collectionViews := |recordMap.value.collectionView.value|);
    }
  }

  /** The backup file name `${tenantId}_${timestamp}.json`, where the ISO
      timestamp has every ':' and '.' replaced by '-'. */
  function BackupFilename(tenantId: string, isoTimestamp: string): (name: string)
    ensures |name| == |tenantId| + |isoTimestamp| + 6
    ensures StartsWith(name, tenantId + "_")
    ensures name[|name| - 5..] == ".json"
    ensures var stamp := name[|tenantId| + 1..|name| - 5];
            && ':' !in stamp && '.' !in stamp
            && (forall i :: 0 <= i < |isoTimestamp| && isoTimestamp[i] !in {':', '.'} ==> stamp[i] == isoTimestamp[i])
            && (forall i :: 0 <= i < |isoTimestamp| && isoTimestamp[i] in {':', '.'} ==> stamp[i] == '-')
  {
    var stamp := ReplaceChars(isoTimestamp, {':', '.'}, '-');
    var name := tenantId + "_" + stamp + ".json";
    assert name[|tenantId| + 1..|name| - 5] == stamp;
    name
  }
}

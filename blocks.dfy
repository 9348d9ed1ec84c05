/**
 * Block registration (inc/blocks.php): every folder under build/blocks/ is
 * registered, except those a disabled setting puts on the skip list.
 */
module Blocks {
  import opened Wrappers
  import opened Php
  import opened Settings

  const FrontendBlock: string := "starter-item-frontend"
  const MetaBlock: string := "starter-item-meta"

  /** The skip list `register_blocks` builds from the merged settings. */
  function SkipList(saved: map<string, Value>): (skip: seq<string>)
    ensures FrontendBlock in skip <==> SettingOff(saved, "enable_frontend_block")
    ensures MetaBlock in skip <==> SettingOff(saved, "enable_cpt")
    ensures forall b :: b in skip ==> b == FrontendBlock || b == MetaBlock
  {
    assert FrontendBlock != MetaBlock by { assert FrontendBlock[13] == 'f' && MetaBlock[13] == 'm'; }
    (if SettingOff(saved, "enable_frontend_block") then [FrontendBlock] else [])
    + (if SettingOff(saved, "enable_cpt") then [MetaBlock] else [])
  }

  /** `in_array(basename($folder), $skip_blocks, true)`. */
  predicate Skipped(folder: string, skip: seq<string>) {
    Basename(folder) in skip
  }

  /** The folders the loop registers: those whose basename is not skipped, in glob order. */
  function Kept(folders: seq<string>, skip: seq<string>): (kept: seq<string>)
  {
    if folders == [] then []
    else
      var init := Kept(folders[..|folders| - 1], skip);
      var last := folders[|folders| - 1];
      if Skipped(last, skip) then init else init + [last]
  }

  /** A folder is registered iff glob lists it and its basename is not skipped. */
  lemma {:induction false} KeptMembers(folders: seq<string>, skip: seq<string>, f: string)
    ensures f in Kept(folders, skip) <==> f in folders && !Skipped(f, skip)
  {
    if folders != [] {
      var init := folders[..|folders| - 1];
      var last := folders[|folders| - 1];
      assert folders == init + [last];
      KeptMembers(init, skip, f);
    }
  }

  /**
   * `register_blocks`: `blocksDirExists` is `is_dir` of the build directory and
   * `glob` the result of `glob(..., GLOB_ONLYDIR)` (`None` for false); the
   * result lists the `register_block_type` calls in the order they are made.
   */
  method RegisterBlocks(blocksDirExists: bool, saved: map<string, Value>, glob: Option<seq<string>>) returns (registered: seq<string>)
    ensures !blocksDirExists || glob == None || glob == Some([]) ==> registered == []
    ensures blocksDirExists && glob.Some? ==> registered == Kept(glob.value, SkipList(saved))
  {
    registered := [];
    if !blocksDirExists {
      return;
    }
    var skip: seq<string> := [];
    if SettingOff(saved, "enable_frontend_block") {
      skip := skip + [FrontendBlock];
    }
    if SettingOff(saved, "enable_cpt") {
      skip := skip + [MetaBlock];
    }
    assert skip == SkipList(saved);
    if glob == None || glob == Some([]) {
      return;
    }
    var folders := glob.value;
    for i := 0 to |folders|
      invariant registered == Kept(folders[..i], skip)
    {
      assert folders[..i + 1][..i] == folders[..i];
      if Basename(folders[i]) in skip {
        continue;
      }
      registered := registered + [folders[i]];
    }
    assert folders[..|folders|] == folders;
  }

  /** Filtering distributes over concatenation, so the glob order is kept. */
  lemma {:induction false} KeptAppend(a: seq<string>, b: seq<string>, skip: seq<string>)
    ensures Kept(a + b, skip) == Kept(a, skip) + Kept(b, skip)
  {
    if b == [] {
      assert a + b == a;
    } else {
      var b0 := b[..|b| - 1];
      assert (a + b)[..|a + b| - 1] == a + b0;
      assert b[..|b| - 1] == b0;
      KeptAppend(a, b0, skip);
    }
  }

  /** Number of occurrences of `x` in `s`. */
  function Count(x: string, s: seq<string>): nat {
    if s == [] then 0 else (if s[|s| - 1] == x then 1 else 0) + Count(x, s[..|s| - 1])
  }

  /** A folder not skipped is registered as often as glob lists it, so exactly once for a duplicate-free glob. */
  lemma {:induction false} KeptCount(folders: seq<string>, skip: seq<string>, f: string)
    ensures Count(f, Kept(folders, skip)) == if Skipped(f, skip) then 0 else Count(f, folders)
  {
    if folders != [] {
      var init := folders[..|folders| - 1];
      var last := folders[|folders| - 1];
      KeptCount(init, skip, f);
      var k := Kept(init, skip);
      if !Skipped(last, skip) {
        assert (k + [last])[..|k + [last]| - 1] == k;
      }
    }
  }

  /** With the default settings nothing is skipped: every block folder is registered. */
  lemma {:induction false} DefaultsSkipNothing()
    ensures SkipList(map[]) == []
  {
    DefaultValues();
    NothingSavedReadsDefaults();
    assert GetSettings(map[])["enable_frontend_block"] == Bool(true);
    assert GetSettings(map[])["enable_cpt"] == Bool(true);
  }

  lemma {:induction false} RegisterAllByDefault(folders: seq<string>)
    ensures Kept(folders, SkipList(map[])) == folders
  {
    DefaultsSkipNothing();
    KeptNoSkip(folders);
  }

  lemma {:induction false} KeptNoSkip(folders: seq<string>)
    ensures Kept(folders, []) == folders
  {
    if folders != [] {
      var init := folders[..|folders| - 1];
      KeptNoSkip(init);
      assert folders == init + [folders[|folders| - 1]];
    }
  }
}

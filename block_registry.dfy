/**
 * The block registry: a name → directory table built from the plugin's
 * hard-coded block list, passed through the `dokan_blocks_registered_blocks`
 * filter, then looked up, listed and registered with WordPress.
 */
module BlockRegistry {
  import opened Wp

  /** The directory names of the plugin's blocks, in registration order. */
  const BlockSlugs: seq<string> := [
    "vendor-store-header", "vendor-store-sidebar", "vendor-store-tabs", "vendor-store-terms-conditions",
    "vendor-query-loop", "vendor-query-pagination", "vendor-card", "vendor-search",
    "vendor-store-name", "vendor-avatar", "vendor-rating", "vendor-store-address",
    "vendor-store-phone", "vendor-store-status", "vendor-store-banner",
    "product-vendor-info", "more-from-seller",
    "become-vendor-cta",
    "vendor-contact-form", "vendor-store-location", "vendor-store-hours"]

  const NamePrefix: string := "the-another/blocks-for-dokan-"

  /** The registry name of a block directory. */
  function BlockName(slug: string): string {
    NamePrefix + slug
  }

  /** Different directories give different names. */
  lemma BlockNameInjective(s1: string, s2: string)
    requires BlockName(s1) == BlockName(s2)
    ensures s1 == s2
  {
    assert s1 == BlockName(s1)[|NamePrefix|..];
    assert s2 == BlockName(s2)[|NamePrefix|..];
  }

  /** The render function each known block name is mapped to. */
  const RenderFunctionMap: map<string, string> := map[
    BlockName("vendor-store-header") := "theabd_render_vendor_store_header_block",
    BlockName("vendor-store-sidebar") := "theabd_render_vendor_store_sidebar_block",
    BlockName("vendor-store-tabs") := "theabd_render_vendor_store_tabs_block",
    BlockName("vendor-store-terms-conditions") := "theabd_render_vendor_store_terms_conditions_block",
    BlockName("vendor-query-loop") := "theabd_render_vendor_query_loop_block",
    BlockName("vendor-query-pagination") := "theabd_render_vendor_query_pagination_block",
    BlockName("vendor-card") := "theabd_render_vendor_card_block",
    BlockName("vendor-search") := "theabd_render_vendor_search_block",
    BlockName("vendor-store-name") := "theabd_render_vendor_store_name_block",
    BlockName("vendor-avatar") := "theabd_render_vendor_avatar_block",
    BlockName("vendor-rating") := "theabd_render_vendor_rating_block",
    BlockName("vendor-store-address") := "theabd_render_vendor_store_address_block",
    BlockName("vendor-store-phone") := "theabd_render_vendor_store_phone_block",
    BlockName("vendor-store-status") := "theabd_render_vendor_store_status_block",
    BlockName("vendor-store-banner") := "theabd_render_vendor_store_banner_block",
    BlockName("product-vendor-info") := "theabd_render_product_vendor_info_block",
    BlockName("more-from-seller") := "theabd_render_more_from_seller_block",
    BlockName("vendor-contact-form") := "theabd_render_vendor_contact_form_block",
    BlockName("vendor-store-location") := "theabd_render_vendor_store_location_block",
    BlockName("vendor-store-hours") := "theabd_render_vendor_store_hours_block",
    BlockName("become-vendor-cta") := "theabd_render_become_vendor_cta_block"]

  /** The table after the first `n` hard-coded assignments `$this->blocks[name] = dir`. */
  function PathsFor(blocksDir: string, slugs: seq<string>): (t: Table<string>)
    ensures t.Valid()
    ensures forall s :: s in slugs ==> BlockName(s) in t.entries && t.entries[BlockName(s)] == blocksDir + s
    ensures forall k :: k in t.keys ==> exists s :: s in slugs && k == BlockName(s)
    ensures |t.keys| <= |slugs|
  {
    if |slugs| == 0 then EmptyTable()
    else
      var last := slugs[|slugs| - 1];
      var t0 := PathsFor(blocksDir, slugs[..|slugs| - 1]);
      PutKeepsValid(t0, BlockName(last), blocksDir + last);
      forall s | s in slugs && s != last
        ensures s in slugs[..|slugs| - 1]
      {
      }
      forall s | s in slugs[..|slugs| - 1] && BlockName(s) == BlockName(last)
        ensures t0.entries[BlockName(s)] == blocksDir + last
      {
        BlockNameInjective(s, last);
      }
      t0.Put(BlockName(last), blocksDir + last)
  }

  /** The table `register_block_paths` builds before the filter. */
  function DefaultBlockPaths(blocksDir: string): Table<string> {
    PathsFor(blocksDir, BlockSlugs)
  }

  /** The outcome of `register_block` for one entry. */
  datatype Registration = Registration(
    dir: string,
    renderCallback: Option<string>,
    fromMetadata: bool)

  /**
   * `Block_Registry::register_block`. `files` are the paths that exist and
   * `functions` the PHP functions defined once `render.php` has been loaded.
   * None: nothing is registered (no `block.json`).
   */
  function RegisterBlock(files: set<string>, functions: set<string>, name: string, dir: string): (reg: Option<Registration>)
    ensures reg.None? <==> dir + "/block.json" !in files
    ensures reg.Some? ==> reg.value.dir == dir
    ensures reg.Some? ==>
              (reg.value.renderCallback.Some? <==>
                 dir + "/render.php" in files && name in RenderFunctionMap && RenderFunctionMap[name] in functions)
    ensures reg.Some? && reg.value.renderCallback.Some? ==> reg.value.renderCallback.value == RenderFunctionMap[name]
    ensures reg.Some? ==> (reg.value.fromMetadata <==> "register_block_type_from_metadata" in functions)
  {
    if dir + "/block.json" !in files then None
    else
      var callback :=
        if dir + "/render.php" in files && name in RenderFunctionMap && RenderFunctionMap[name] in functions
        then Some(RenderFunctionMap[name]) else None;
      Some(Registration(dir, callback, "register_block_type_from_metadata" in functions))
  }

  /** The registrations performed for `keys`, in order, skipping entries without `block.json`. */
  function RegistrationsFor(files: set<string>, functions: set<string>, t: Table<string>, keys: seq<string>): (regs: seq<Registration>)
    requires forall k :: k in keys ==> k in t.entries
    ensures |regs| <= |keys|
    ensures forall g :: g in regs ==> exists k :: k in keys && g.dir == t.entries[k] && g.dir + "/block.json" in files
  {
    if |keys| == 0 then []
    else
      var last := keys[|keys| - 1];
      var rest := RegistrationsFor(files, functions, t, keys[..|keys| - 1]);
      var reg := RegisterBlock(files, functions, last, t.entries[last]);
      if reg.Some? then rest + [reg.value] else rest
  }

  /** One more assignment extends the table by the next slug. */
  lemma PathsForStep(blocksDir: string, slugs: seq<string>, i: int)
    requires 0 <= i < |slugs|
    ensures PathsFor(blocksDir, slugs[..i + 1]) == PathsFor(blocksDir, slugs[..i]).Put(BlockName(slugs[i]), blocksDir + slugs[i])
  {
    var front := slugs[..i + 1];
    assert front[..|front| - 1] == slugs[..i];
    assert front[|front| - 1] == slugs[i];
  }

  /** A single entry is registered exactly when its directory has a `block.json`. */
  lemma RegistrationsForOne(files: set<string>, functions: set<string>, t: Table<string>, k: string)
    requires k in t.entries
    ensures var reg := RegisterBlock(files, functions, k, t.entries[k]);
            RegistrationsFor(files, functions, t, [k]) == (if reg.Some? then [reg.value] else [])
  {
    assert [k][..0] == [];
  }

  /** Registering two runs of keys registers the first run's entries, then the second's. */
  lemma {:induction false} RegistrationsForAppend(files: set<string>, functions: set<string>, t: Table<string>,
                                                  ks1: seq<string>, ks2: seq<string>)
    requires forall k :: k in ks1 + ks2 ==> k in t.entries
    ensures RegistrationsFor(files, functions, t, ks1 + ks2)
            == RegistrationsFor(files, functions, t, ks1) + RegistrationsFor(files, functions, t, ks2)
    decreases |ks2|
  {
    if |ks2| == 0 {
      assert ks1 + ks2 == ks1;
    } else {
      var front := ks2[..|ks2| - 1];
      var last := ks2[|ks2| - 1];
      assert (ks1 + ks2)[..|ks1 + ks2| - 1] == ks1 + front;
      assert (ks1 + ks2)[|ks1 + ks2| - 1] == last;
      RegistrationsForAppend(files, functions, t, ks1, front);
    }
  }

  /** Every entry whose directory holds a `block.json` is registered, with its own directory and callback. */
  lemma EveryBlockJsonRegistered(files: set<string>, functions: set<string>, t: Table<string>, keys: seq<string>, i: int)
    requires forall k :: k in keys ==> k in t.entries
    requires 0 <= i < |keys| && t.entries[keys[i]] + "/block.json" in files
    ensures RegisterBlock(files, functions, keys[i], t.entries[keys[i]]).Some?
    ensures RegisterBlock(files, functions, keys[i], t.entries[keys[i]]).value in RegistrationsFor(files, functions, t, keys)
  {
    assert keys == keys[..i] + [keys[i]] + keys[i + 1..];
    RegistrationsForAppend(files, functions, t, keys[..i], [keys[i]]);
    RegistrationsForAppend(files, functions, t, keys[..i] + [keys[i]], keys[i + 1..]);
    RegistrationsForOne(files, functions, t, keys[i]);
  }

  /** The hard-coded assignments `$this->blocks[BlockName(slug)] = blocksDir . slug`, one per slug. */
  method AssignPaths(blocksDir: string, slugs: seq<string>) returns (t: Table<string>)
    ensures t == PathsFor(blocksDir, slugs)
  {
    t := EmptyTable();
    var i := 0;
    while i < |slugs|
      invariant 0 <= i <= |slugs|
      invariant t == PathsFor(blocksDir, slugs[..i])
    {
      PathsForStep(blocksDir, slugs, i);
      t := t.Put(BlockName(slugs[i]), blocksDir + slugs[i]);
      i := i + 1;
    }
    assert slugs[..i] == slugs;
  }

  /** The hard-coded assignments for the plugin's own block list. */
  method AssignDefaultPaths(blocksDir: string) returns (t: Table<string>)
    ensures t == DefaultBlockPaths(blocksDir) && t.Valid()
  {
    t := AssignPaths(blocksDir, BlockSlugs);
  }

  class Registry {
    /** `$blocks`: registry name → block directory, in insertion order. */
    var blocks: Table<string>

    ghost predicate Valid()
      reads this
    {
      blocks.Valid()
    }

    /**
     * The constructor (`register_block_paths`): the hard-coded entries, then
     * the filter. The filter is a host callback returning a PHP array.
     */
    constructor (blocksDir: string, filter: Table<string> -> Table<string>)
      requires forall t: Table<string> :: t.Valid() ==> filter(t).Valid()
      ensures Valid()
      ensures blocks == filter(DefaultBlockPaths(blocksDir))
    {
      var t := AssignDefaultPaths(blocksDir);
      blocks := filter(t);
    }

    /** `is_registered`. */
    function IsRegistered(name: string): (b: bool)
      requires Valid()
      reads this
      ensures b <==> name in blocks.keys
    {
      name in blocks.entries
    }

    /** `get_registered_blocks`: the table's keys in insertion order. */
    function GetRegisteredBlocks(): (names: seq<string>)
      requires Valid()
      reads this
      ensures names == blocks.keys
      ensures forall n :: n in names <==> IsRegistered(n)
      ensures forall i, j :: 0 <= i < j < |names| ==> names[i] != names[j]
    {
      blocks.keys
    }

    /** `register_all_blocks`: `register_block` once per entry, in table order. */
    method RegisterAllBlocks(files: set<string>, functions: set<string>) returns (regs: seq<Registration>)
      requires Valid()
      ensures regs == RegistrationsFor(files, functions, blocks, blocks.keys)
    {
      regs := [];
      var i := 0;
      while i < |blocks.keys|
        invariant 0 <= i <= |blocks.keys|
        invariant regs == RegistrationsFor(files, functions, blocks, blocks.keys[..i])
      {
        var name := blocks.keys[i];
        assert blocks.keys[..i + 1][..i] == blocks.keys[..i];
        var reg := RegisterBlock(files, functions, name, blocks.entries[name]);
        if reg.Some? {
          regs := regs + [reg.value];
        }
        i := i + 1;
      }
      assert blocks.keys[..i] == blocks.keys;
    }
  }

  /** Without a filter, every hard-coded block is registered under its name and directory. */
  lemma DefaultTableHoldsEveryBlock(blocksDir: string, slug: string)
    requires slug in BlockSlugs
    ensures BlockName(slug) in DefaultBlockPaths(blocksDir).keys
    ensures DefaultBlockPaths(blocksDir).entries[BlockName(slug)] == blocksDir + slug
  {
  }

  /** An entry a filter adds becomes visible to `is_registered`, the defaults staying in place. */
  lemma FilterAddedEntryIsRegistered(blocksDir: string, name: string, dir: string)
    ensures var t := DefaultBlockPaths(blocksDir).Put(name, dir);
            t.Valid() && name in t.keys
            && forall s :: s in BlockSlugs ==> BlockName(s) in t.keys
  {
    PutKeepsValid(DefaultBlockPaths(blocksDir), name, dir);
  }
}

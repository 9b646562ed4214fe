/** Required device extensions (renderer.c:190-229): the Renderer enables
    the extensions its import mode needs, in table order, and aborts if the
    device lacks one of them. */
module Extensions {
  import opened Base

  const EXTERNAL_MEMORY_FD: string := "VK_KHR_external_memory_fd"
  const EXTERNAL_MEMORY_DMA_BUF: string := "VK_EXT_external_memory_dma_buf"
  const EXTERNAL_MEMORY_HOST: string := "VK_EXT_external_memory_host"

  datatype ExtensionEntry = ExtensionEntry(name: string, required: bool)

  /** ext_table: dma-buf import needs the fd and dma_buf extensions,
      host-pointer import the host extension. */
  function ExtensionTable(useUdmabuf: bool): seq<ExtensionEntry>
  {
    [ ExtensionEntry(EXTERNAL_MEMORY_FD, useUdmabuf),
      ExtensionEntry(EXTERNAL_MEMORY_DMA_BUF, useUdmabuf),
      ExtensionEntry(EXTERNAL_MEMORY_HOST, !useUdmabuf) ]
  }

  /** The names of the required entries, in table order. */
  function RequiredNames(table: seq<ExtensionEntry>): seq<string>
  {
    if table == [] then []
    else
      var last := table[|table| - 1];
      RequiredNames(table[..|table| - 1]) + (if last.required then [last.name] else [])
  }

  /** The extensions each import mode asks for. */
  lemma RequiredByMode(useUdmabuf: bool)
    ensures RequiredNames(ExtensionTable(useUdmabuf))
            == if useUdmabuf then [EXTERNAL_MEMORY_FD, EXTERNAL_MEMORY_DMA_BUF]
               else [EXTERNAL_MEMORY_HOST]
  {
    var t := ExtensionTable(useUdmabuf);
    assert t[..1][..0] == [];
    assert RequiredNames(t[..1]) == if useUdmabuf then [EXTERNAL_MEMORY_FD] else [];
    assert t[..2][..1] == t[..1];
    assert RequiredNames(t[..2]) == if useUdmabuf then [EXTERNAL_MEMORY_FD, EXTERNAL_MEMORY_DMA_BUF] else [];
    assert t[..3][..2] == t[..2];
    assert t[..3] == t;
  }

  /** The device offers every extension the import mode requires. */
  predicate Supported(useUdmabuf: bool, available: seq<string>)
  {
    forall n :: n in RequiredNames(ExtensionTable(useUdmabuf)) ==> n in available
  }

  /** The required names of a prefix of the table are required names of
      the whole table. */
  lemma {:induction false} RequiredNamesPrefix(table: seq<ExtensionEntry>, i: nat)
    requires i <= |table|
    ensures forall n :: n in RequiredNames(table[..i]) ==> n in RequiredNames(table)
  {
    if i < |table| {
      var init := table[..|table| - 1];
      assert init[..i] == table[..i];
      RequiredNamesPrefix(init, i);
    } else {
      assert table[..i] == table;
    }
  }

  /** The inner search of renderer_init_vk_device: a linear scan of the
      device's extension names that stops at the first match. */
  method FindExtension(available: seq<string>, name: string) returns (found: bool)
    ensures found <==> name in available
  {
    found := false;
    var j := 0;
    while j < |available|
      invariant 0 <= j <= |available|
      invariant name !in available[..j]
    {
      if available[j] == name {
        return true;
      }
      j := j + 1;
    }
    assert available[..j] == available;
  }

  /** The extension search of renderer_init_vk_device: for each required
      entry, a linear search of the device's extension names; the enabled
      list grows by one name per required entry. */
  method EnableExtensions(useUdmabuf: bool, available: seq<string>) returns (r: Result<seq<string>>)
    ensures r.Ok? <==> Supported(useUdmabuf, available)
    ensures r.Err? ==> r.error == MissingExtensions
    ensures r.Ok? ==> r.value == RequiredNames(ExtensionTable(useUdmabuf))
    ensures r.Ok? ==> r.value == if useUdmabuf then [EXTERNAL_MEMORY_FD, EXTERNAL_MEMORY_DMA_BUF]
                                 else [EXTERNAL_MEMORY_HOST]
  {
    RequiredByMode(useUdmabuf);
    var table := ExtensionTable(useUdmabuf);
    var enabled: seq<string> := [];
    var i := 0;
    while i < |table|
      invariant 0 <= i <= |table|
      invariant enabled == RequiredNames(table[..i])
      invariant forall n :: n in enabled ==> n in available
    {
      var entry := table[i];
      assert table[..i + 1][..i] == table[..i] && table[..i + 1][i] == entry;
      if entry.required {
        var found := FindExtension(available, entry.name);
        if !found {
          assert entry.name in RequiredNames(table[..i + 1]);
          RequiredNamesPrefix(table, i + 1);
          return Err(MissingExtensions);
        }
        enabled := enabled + [entry.name];
      }
      i := i + 1;
    }
    assert table[..i] == table;
    r := Ok(enabled);
  }
}

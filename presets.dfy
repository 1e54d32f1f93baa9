/** The device preset table: `setup(device, island)` in AppleDeviceMediaGenerator.py. */
module Presets {
  import opened PythonOps
  import opened Sizes

  /** `p(relative)`: a bundled image, resolved against a base directory that the
      process environment decides. Only the relative part is modelled. */
  datatype Asset = Bundled(relative: string)

  /** What `setup` returns: `(CONTENT_SIZE, frame_path, mask_path)`. */
  datatype Preset = Preset(contentSize: Size, frame: Asset, mask: Asset)

  /** The device names the command line accepts, in its order. */
  const DeviceChoices: seq<string> := ["iPhone-16-Pro", "iPad-11-Pro", "macbook-pro-14"]

  /** The error `setup` raises when no branch bound `CONTENT_SIZE`. */
  const UnknownDevice: PyError := UnboundLocalError("CONTENT_SIZE")

  /** The if/elif chain of `setup`. Device names are compared exactly. */
  function Setup(device: string, island: bool): (r: Result<Preset>)
    ensures r.Ok? <==> device in DeviceChoices
    ensures r.Err? ==> r.error == UnknownDevice
    ensures r.Ok? ==> Positive(r.value.contentSize)
  {
    if device == "iPhone-16-Pro" then
      Ok(Preset(Size(884, 1918),
                if island then Bundled("iphone/frame_iPhone-16-pro-island.png")
                else Bundled("iphone/frame_iPhone-16-pro.png"),
                Bundled("iphone/mask_iPhone-16-pro.png")))
    else if device == "iPad-11-Pro" then
      Ok(Preset(Size(1310, 1898),
                Bundled("ipad/frame_iPad-11-pro.png"),
                Bundled("ipad/mask_iPad-11-pro.png")))
    else if device == "macbook-pro-14" then
      Ok(Preset(Size(2504, 1628),
                Bundled("mac/frame_macbook-pro-14.png"),
                Bundled("mac/mask_macbook-pro-14.png")))
    else
      Err(UnknownDevice)
  }

  /** The iPhone preset: its content size and mask whatever `island` is; only
      the frame changes, to the variant that draws the dynamic island. */
  lemma IPhonePreset(island: bool)
    ensures Setup("iPhone-16-Pro", island).Ok?
    ensures Setup("iPhone-16-Pro", island).value.contentSize == Size(884, 1918)
    ensures Setup("iPhone-16-Pro", island).value.mask == Bundled("iphone/mask_iPhone-16-pro.png")
    ensures Setup("iPhone-16-Pro", island).value.frame
         == if island then Bundled("iphone/frame_iPhone-16-pro-island.png")
            else Bundled("iphone/frame_iPhone-16-pro.png")
  {
  }

  /** On the iPhone, the island flag changes the frame and nothing else. */
  lemma IslandChangesOnlyIPhoneFrame(island: bool)
    ensures Setup("iPhone-16-Pro", island).value.frame != Setup("iPhone-16-Pro", !island).value.frame
    ensures Setup("iPhone-16-Pro", island).value.contentSize == Setup("iPhone-16-Pro", !island).value.contentSize
    ensures Setup("iPhone-16-Pro", island).value.mask == Setup("iPhone-16-Pro", !island).value.mask
  {
    var a := Setup("iPhone-16-Pro", island).value.frame.relative;
    var b := Setup("iPhone-16-Pro", !island).value.frame.relative;
    assert |a| != |b|;
  }

  /** Every device other than the iPhone ignores the island flag, unknown names included. */
  lemma IslandIgnoredOffIPhone(device: string, island: bool)
    requires device != "iPhone-16-Pro"
    ensures Setup(device, island) == Setup(device, !island)
  {
  }

  /** The iPad and MacBook presets. */
  lemma TabletAndLaptopPresets(island: bool)
    ensures Setup("iPad-11-Pro", island)
         == Ok(Preset(Size(1310, 1898), Bundled("ipad/frame_iPad-11-pro.png"), Bundled("ipad/mask_iPad-11-pro.png")))
    ensures Setup("macbook-pro-14", island)
         == Ok(Preset(Size(2504, 1628), Bundled("mac/frame_macbook-pro-14.png"), Bundled("mac/mask_macbook-pro-14.png")))
  {
  }

  // An independent statement of the same table, as data.

  /** One device: its name, content size, frame without and with the island, and mask. */
  datatype Row = Row(device: string, contentSize: Size, frame: Asset, islandFrame: Asset, mask: Asset)

  const Table: seq<Row> := [
    Row("iPhone-16-Pro", Size(884, 1918),
        Bundled("iphone/frame_iPhone-16-pro.png"),
        Bundled("iphone/frame_iPhone-16-pro-island.png"),
        Bundled("iphone/mask_iPhone-16-pro.png")),
    Row("iPad-11-Pro", Size(1310, 1898),
        Bundled("ipad/frame_iPad-11-pro.png"),
        Bundled("ipad/frame_iPad-11-pro.png"),
        Bundled("ipad/mask_iPad-11-pro.png")),
    Row("macbook-pro-14", Size(2504, 1628),
        Bundled("mac/frame_macbook-pro-14.png"),
        Bundled("mac/frame_macbook-pro-14.png"),
        Bundled("mac/mask_macbook-pro-14.png"))
  ]

  /** The first row named `device`, turned into a preset. */
  function Lookup(rows: seq<Row>, device: string, island: bool): (r: Result<Preset>)
    ensures r.Ok? <==> exists k :: 0 <= k < |rows| && rows[k].device == device
  {
    if rows == [] then Err(UnknownDevice)
    else if rows[0].device == device then
      Ok(Preset(rows[0].contentSize, if island then rows[0].islandFrame else rows[0].frame, rows[0].mask))
    else
      var r := Lookup(rows[1..], device, island);
      assert forall k :: 0 < k < |rows| ==> rows[k] == rows[1..][k - 1];
      r
  }

  /** `setup` is exactly a lookup in the table, and the table's names are the CLI's choices. */
  lemma {:induction false} SetupIsTableLookup(device: string, island: bool)
    ensures Setup(device, island) == Lookup(Table, device, island)
    ensures forall k :: 0 <= k < |Table| ==> Table[k].device == DeviceChoices[k]
  {
    var rest1, rest2 := Table[1..], Table[1..][1..];
    assert rest1[0] == Table[1] && rest2[0] == Table[2] && rest2[1..] == [];
    if device != Table[0].device {
      assert Lookup(Table, device, island) == Lookup(rest1, device, island);
      if device != Table[1].device {
        assert Lookup(rest1, device, island) == Lookup(rest2, device, island);
        if device != Table[2].device {
          assert Lookup(rest2, device, island) == Lookup(rest2[1..], device, island);
        }
      }
    }
  }
}

/** The geometry that `generate` computes before it builds the filter graph:
    the preset, the scaled size, the crop and the pad. The two sizes it probes
    (the recording's and the frame image's) are parameters. */
module Generate {
  import opened PythonOps
  import opened Sizes
  import opened Presets
  import opened CoverScale
  import opened Placement

  /** The arguments of the `scale`, `crop` and `pad` filters, and the assets. */
  datatype Layout = Layout(scaled: Size, crop: Window, pad: Padding, frame: Asset, mask: Asset)

  /** `setup` first, then `calculate_size`, then the crop and pad offsets. The
      first exception raised is the one reported. */
  function GenerateGeometry(device: string, island: bool, originalSize: Size, frameSize: Size): (r: Result<Layout>)
    ensures r.Err? <==> device !in DeviceChoices || originalSize.w == 0 || originalSize.h == 0
    ensures r.Err? ==> r.error == if device in DeviceChoices then ZeroDivisionError else UnknownDevice
  {
    match Setup(device, island)
    case Err(e) => Err(e)
    case Ok(preset) =>
      match CalculateSize(originalSize, preset.contentSize)
      case Err(e) => Err(e)
      case Ok(scaled) =>
        Ok(Layout(scaled, CropWindow(scaled, preset.contentSize),
                  PadPlacement(frameSize, preset.contentSize), preset.frame, preset.mask))
  }

  /** End to end: for every device the command line accepts and every recording
      with positive dimensions, the scaled image covers the content area, the crop
      has exactly the preset's content size, and it lies inside the scaled image. */
  lemma GenerateCropFits(device: string, island: bool, originalSize: Size, frameSize: Size)
    requires device in DeviceChoices
    requires Positive(originalSize)
    ensures var r := GenerateGeometry(device, island, originalSize, frameSize);
            && r.Ok?
            && r.value.crop.size == Setup(device, island).value.contentSize
            && Covers(r.value.scaled, r.value.crop.size)
            && Inside(r.value.crop, r.value.scaled)
  {
    var content := Setup(device, island).value.contentSize;
    CalculateSizeCovers(originalSize, content);
    CropWindowFits(CalculateSize(originalSize, content).value, content);
  }

  /** When the probed frame image is at least the content size, the cropped content
      is centred on the frame's canvas and lies within it. */
  lemma GeneratePadCentred(device: string, island: bool, originalSize: Size, frameSize: Size)
    requires device in DeviceChoices
    requires Positive(originalSize)
    requires Covers(frameSize, Setup(device, island).value.contentSize)
    ensures var r := GenerateGeometry(device, island, originalSize, frameSize);
            var content := r.value.crop.size;
            && r.Ok?
            && r.value.pad.canvas == frameSize
            && 0.0 <= r.value.pad.x && r.value.pad.x + content.w as real + r.value.pad.x == frameSize.w as real
            && 0.0 <= r.value.pad.y && r.value.pad.y + content.h as real + r.value.pad.y == frameSize.h as real
  {
    PadPlacementFits(frameSize, Setup(device, island).value.contentSize);
  }

  /** The iPhone layout of a 1920x1080 recording: scaled to 3410x1918, then
      cropped to the 884x1918 content area starting 1263 pixels from the left. */
  lemma LandscapeIPhoneLayout(island: bool, frameSize: Size)
    ensures var r := GenerateGeometry("iPhone-16-Pro", island, Size(1920, 1080), frameSize);
            && r.Ok?
            && r.value.scaled == Size(3410, 1918)
            && r.value.crop == Window(1263, 0, Size(884, 1918))
  {
    LandscapeOntoIPhone();
  }
}

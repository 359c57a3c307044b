/**
  Colour values and the colour-space conversions both the engine and the
  switch apply to a colour temperature. The conversions themselves are
  floating-point numerics of the host platform; here they are given as
  uninterpreted functions bundled in a `ColorSpace`.
 */
module Color {
  /** An RGB triple, each channel in the platform's own scale. */
  datatype Rgb = Rgb(r: real, g: real, b: real)

  /** A CIE xy chromaticity. */
  datatype Xy = Xy(x: real, y: real)

  /** A hue/saturation pair. */
  datatype Hs = Hs(h: real, s: real)

  /**
    The conversions: Kelvin to RGB, RGB to xy, xy to hue/saturation, and
    Kelvin to mired.
   */
  datatype ColorSpace = ColorSpace(
    temperatureToRgb: real -> Rgb,
    rgbToXy: Rgb -> Xy,
    xyToHs: Xy -> Hs,
    kelvinToMired: real -> real)

  // The colours derived from one colour temperature, each conversion applied
  // to the result of the previous one.

  function RgbOf(colors: ColorSpace, kelvin: real): Rgb
  {
    colors.temperatureToRgb(kelvin)
  }

  function XyOf(colors: ColorSpace, kelvin: real): Xy
  {
    colors.rgbToXy(RgbOf(colors, kelvin))
  }

  function HsOf(colors: ColorSpace, kelvin: real): Hs
  {
    colors.xyToHs(XyOf(colors, kelvin))
  }
}

/**
 * What the memplot package uses of gonum's plotting library: a plot object
 * with a title, axis labels, a list of plotters drawn on it and a legend. Only
 * the abstract content of a plot is kept; drawing, fonts and image encoding
 * are not modelled.
 */
module Gonum {

  /** One point of a `plotter.XYs` series, with exact reals for float64. */
  datatype XY = XY(X: real, Y: real)

  datatype RGBA = RGBA(R: nat, G: nat, B: nat, A: nat)

  /** A line series (`plotter.Line`) and its style. */
  datatype Line = Line(XYs: seq<XY>, Width: real, Color: RGBA)

  /** The things `Plot.Add` accepts that memplot uses: a background grid and a line. */
  datatype Plotter = Grid | LinePlotter(line: Line)

  /** One `Legend.Add(name, thumbnailer)` entry. */
  datatype LegendEntry = LegendEntry(Label: string, Thumb: Line)

  /** `plot.Plot`, the chart object that memplot fills in. */
  class Plot {
    var Title: string
    var XLabel: string
    var YLabel: string
    var Plotters: seq<Plotter>
    var Legend: seq<LegendEntry>

    /** `plot.New()` when it succeeds: an empty plot. */
    constructor ()
      ensures Title == "" && XLabel == "" && YLabel == ""
      ensures Plotters == [] && Legend == []
    {
      Title, XLabel, YLabel := "", "", "";
      Plotters, Legend := [], [];
    }

    /** `p.Add(pl)`: draws one more plotter on top of the others. */
    method Add(pl: Plotter)
      modifies this
      ensures Plotters == old(Plotters) + [pl]
      ensures Title == old(Title) && XLabel == old(XLabel) && YLabel == old(YLabel)
      ensures Legend == old(Legend)
    {
      Plotters := Plotters + [pl];
    }

    /** `p.Legend.Add(name, line)`: appends one legend entry. */
    method AddLegend(name: string, line: Line)
      modifies this
      ensures Legend == old(Legend) + [LegendEntry(name, line)]
      ensures Title == old(Title) && XLabel == old(XLabel) && YLabel == old(YLabel)
      ensures Plotters == old(Plotters)
    {
      Legend := Legend + [LegendEntry(name, line)];
    }
  }
}

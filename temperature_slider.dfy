/** The creativity slider's label and colour for a temperature. */
module TemperatureSlider {

  /** The four creativity bands, in increasing order of temperature. */
  datatype Band = Factual | Balanced | Creative | VeryCreative
  {
    function Rank(): nat
    {
      match this
      case Factual => 0
      case Balanced => 1
      case Creative => 2
      case VeryCreative => 3
    }

    function Label(): string
    {
      match this
      case Factual => "Factual"
      case Balanced => "Balanced"
      case Creative => "Creative"
      case VeryCreative => "Very Creative"
    }

    function Color(): string
    {
      match this
      case Factual => "text-green-400"
      case Balanced => "text-yellow-400"
      case Creative => "text-orange-400"
      case VeryCreative => "text-red-400"
    }
  }

  /** The band a temperature falls in, stated as intervals: (-inf, 0.2], (0.2, 0.5], (0.5, 0.8], (0.8, +inf). */
  function BandOf(t: real): (b: Band)
    ensures b == Factual <==> t <= 0.2
    ensures b == Balanced <==> 0.2 < t <= 0.5
    ensures b == Creative <==> 0.5 < t <= 0.8
    ensures b == VeryCreative <==> 0.8 < t
  {
    if t <= 0.2 then Factual
    else if t <= 0.5 then Balanced
    else if t <= 0.8 then Creative
    else VeryCreative
  }

  /** `getTemperatureLabel`: the label of the temperature's band. */
  function TemperatureLabel(temp: real): (name: string)
    ensures name == BandOf(temp).Label()
  {
    if temp <= 0.2 then "Factual"
    else if temp <= 0.5 then "Balanced"
    else if temp <= 0.8 then "Creative"
    else "Very Creative"
  }

  /** `getTemperatureColor`: the colour of the temperature's band. */
  function TemperatureColor(temp: real): (color: string)
    ensures color == BandOf(temp).Color()
  {
    if temp <= 0.2 then "text-green-400"
    else if temp <= 0.5 then "text-yellow-400"
    else if temp <= 0.8 then "text-orange-400"
    else "text-red-400"
  }

  /** Labels and colours correspond one to one: two temperatures share a label exactly when they
      share a colour. */
  lemma LabelsMatchColors(t1: real, t2: real)
    ensures TemperatureLabel(t1) == TemperatureLabel(t2) <==> TemperatureColor(t1) == TemperatureColor(t2)
  {
    var b1, b2 := BandOf(t1), BandOf(t2);
    if b1 != b2 {
      assert b1.Label() != b2.Label() by {
        assert b1.Label()[0] != b2.Label()[0] || |b1.Label()| != |b2.Label()|;
      }
      assert b1.Color() != b2.Color() by {
        assert b1.Color()[5] != b2.Color()[5];
      }
    }
  }

  /** A higher temperature never falls in a lower band. */
  lemma BandsOrdered(t1: real, t2: real)
    requires t1 <= t2
    ensures BandOf(t1).Rank() <= BandOf(t2).Rank()
  {
  }
}

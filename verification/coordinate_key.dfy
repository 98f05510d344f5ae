/**
 The cache key of a coordinate pair: the template `${latitude}_${longitude}`.
 How JavaScript renders a number as text is out of reach, so the rendering is a
 parameter `fmt` that every caller supplies; the same `fmt` is used at every site.
 */
module CoordinateKey {

  import opened JsValues

  /** Renders a coordinate as the text a template literal would produce. */
  type Formatter = Num -> string

  const Separator: char := '_'

  /** The key `${lat}_${lon}`. */
  function Key(fmt: Formatter, lat: Num, lon: Num): (k: string)
    ensures |k| == |fmt(lat)| + 1 + |fmt(lon)|
    ensures k[..|fmt(lat)|] == fmt(lat) && k[|fmt(lat)|] == Separator && k[|fmt(lat)| + 1..] == fmt(lon)
  {
    fmt(lat) + [Separator] + fmt(lon)
  }

  /** A text joined around a separator it does not contain splits back uniquely. */
  lemma SplitAtSeparator(a: string, b: string, c: string, d: string)
    requires Separator !in a && Separator !in c
    requires a + [Separator] + b == c + [Separator] + d
    ensures a == c && b == d
  {
    var x := a + [Separator] + b;
    assert forall i :: 0 <= i < |a| ==> x[i] == a[i];
    assert forall i :: 0 <= i < |c| ==> x[i] == c[i];
    assert x[|a|] == Separator;
    assert x[|c|] == Separator;
    assert |a| == |c|;
    assert a == x[..|a|];
    assert c == x[..|c|];
    assert b == x[|a| + 1..];
    assert d == x[|c| + 1..];
  }

  /**
   Two coordinate pairs share a key exactly when they are equal, provided the latitudes
   print without the separator and each pair of coordinates prints apart when it differs.
   */
  lemma KeyInjective(fmt: Formatter, lat1: Num, lon1: Num, lat2: Num, lon2: Num)
    requires Separator !in fmt(lat1) && Separator !in fmt(lat2)
    requires fmt(lat1) == fmt(lat2) ==> lat1 == lat2
    requires fmt(lon1) == fmt(lon2) ==> lon1 == lon2
    ensures Key(fmt, lat1, lon1) == Key(fmt, lat2, lon2) <==> lat1 == lat2 && lon1 == lon2
  {
    if Key(fmt, lat1, lon1) == Key(fmt, lat2, lon2) {
      SplitAtSeparator(fmt(lat1), fmt(lon1), fmt(lat2), fmt(lon2));
    }
  }
}

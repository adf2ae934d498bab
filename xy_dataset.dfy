/** The chart dataset of the curve-fitting program: a collection of XY series and, for each
    series, whether its line and its shapes are drawn. */
module ChartData {

  datatype XYItem = XYItem(x: real, y: real)

  /** An XY series of the charting library, as a key and its items in order. */
  datatype XYSeries = XYSeries(key: string, items: seq<XYItem>)

  /** Points on the original function, and training points (both 100 in the program). */
  const NumChartPoints: nat := 100
  const NumTrainPoints: nat := 100

  /** `n + 1` points at x = i/n, with y from `f`: the loops of the default constructor. The y
      values (a sine, and a sine with Gaussian noise) are computed outside the model. */
  method SampledSeries(key: string, n: nat, f: nat -> real) returns (s: XYSeries)
    requires n > 0
    ensures s.key == key && |s.items| == n + 1
    ensures forall i :: 0 <= i <= n ==> s.items[i] == XYItem((1.0 / n as real) * i as real, f(i))
  {
    var items: seq<XYItem> := [];
    var i := 0;
    while i <= n
      invariant 0 <= i <= n + 1 && |items| == i
      invariant forall k :: 0 <= k < i ==> items[k] == XYItem((1.0 / n as real) * k as real, f(k))
    {
      var x := (1.0 / n as real) * i as real;
      items := items + [XYItem(x, f(i))];
      i := i + 1;
    }
    s := XYSeries(key, items);
  }

  class MyXYDataset {
    var xySeriesCollection: seq<XYSeries>
    var linesVisible: seq<bool>
    var shapesVisible: seq<bool>

    /** The three collections run in parallel: one entry per series in each. */
    ghost predicate Valid()
      reads this
    {
      |xySeriesCollection| == |linesVisible| == |shapesVisible|
    }

    /** The default dataset: the original function with its line drawn, then the noisy
        training points with their shapes drawn. */
    constructor Default(wave: nat -> real, noisy: nat -> real)
      ensures Valid() && |xySeriesCollection| == 2
      ensures linesVisible == [true, false] && shapesVisible == [false, true]
      ensures xySeriesCollection[0].key == "sin(2\U{03C0}x)" && xySeriesCollection[1].key == "random noise added"
      ensures |xySeriesCollection[0].items| == NumChartPoints + 1
      ensures |xySeriesCollection[1].items| == NumTrainPoints + 1
    {
      var series0 := SampledSeries("sin(2\U{03C0}x)", NumChartPoints, wave);
      var series1 := SampledSeries("random noise added", NumTrainPoints, noisy);
      linesVisible := [true] + [false];
      shapesVisible := [false] + [true];
      xySeriesCollection := [series0] + [series1];
    }

    /** The dataset made of the given parts. */
    constructor (collection: seq<XYSeries>, lines: seq<bool>, shapes: seq<bool>)
      ensures xySeriesCollection == collection && linesVisible == lines && shapesVisible == shapes
      ensures Valid() <==> |collection| == |lines| == |shapes|
    {
      xySeriesCollection, linesVisible, shapesVisible := collection, lines, shapes;
    }

    /** Whether the line of series `index` is drawn. */
    function LineVisible(index: nat): (b: bool)
      reads this
      requires index < |linesVisible|
      ensures b == linesVisible[index]
    {
      linesVisible[index]
    }

    /** Whether the shapes of series `index` are drawn. */
    function ShapeVisible(index: nat): (b: bool)
      reads this
      requires index < |shapesVisible|
      ensures b == shapesVisible[index]
    {
      shapesVisible[index]
    }

    /** Appends the series and its two flags at the end. */
    method AddSeries(newSeries: XYSeries, lineVisible: bool, shapeVisible: bool)
      requires Valid()
      modifies this
      ensures Valid()
      ensures xySeriesCollection == old(xySeriesCollection) + [newSeries]
      ensures linesVisible == old(linesVisible) + [lineVisible]
      ensures shapesVisible == old(shapesVisible) + [shapeVisible]
    {
      xySeriesCollection := xySeriesCollection + [newSeries];
      linesVisible := linesVisible + [lineVisible];
      shapesVisible := shapesVisible + [shapeVisible];
    }

    /** Series `index` of the collection. */
    function GetSeries(index: nat): (s: XYSeries)
      reads this
      requires index < |xySeriesCollection|
      ensures s == xySeriesCollection[index] && s in xySeriesCollection
    {
      xySeriesCollection[index]
    }

    /** One x per item of series `seriesIndex`, in item order. */
    method GetVectX(seriesIndex: nat) returns (vectX: seq<real>)
      requires seriesIndex < |xySeriesCollection|
      ensures |vectX| == |xySeriesCollection[seriesIndex].items|
      ensures forall i :: 0 <= i < |vectX| ==> vectX[i] == xySeriesCollection[seriesIndex].items[i].x
    {
      var xySeries := xySeriesCollection[seriesIndex];
      var dimX := |xySeries.items|;
      vectX := [];
      var i := 0;
      while i < dimX
        invariant 0 <= i <= dimX && |vectX| == i
        invariant forall k :: 0 <= k < i ==> vectX[k] == xySeries.items[k].x
      {
        vectX := vectX + [xySeries.items[i].x];
        i := i + 1;
      }
    }

    /** One y per item of series `seriesIndex`, in item order. */
    method GetVectY(seriesIndex: nat) returns (vectY: seq<real>)
      requires seriesIndex < |xySeriesCollection|
      ensures |vectY| == |xySeriesCollection[seriesIndex].items|
      ensures forall i :: 0 <= i < |vectY| ==> vectY[i] == xySeriesCollection[seriesIndex].items[i].y
    {
      var xySeries := xySeriesCollection[seriesIndex];
      var dimY := |xySeries.items|;
      vectY := [];
      var i := 0;
      while i < dimY
        invariant 0 <= i <= dimY && |vectY| == i
        invariant forall k :: 0 <= k < i ==> vectY[k] == xySeries.items[k].y
      {
        vectY := vectY + [xySeries.items[i].y];
        i := i + 1;
      }
    }

    /** A new dataset holding, in order, the series of this one that `selection` names, each
        with its flags. It empties a fresh default dataset first; this one is not changed. */
    method SelectSeries(selection: seq<int>, wave: nat -> real, noisy: nat -> real)
      returns (mydataset: MyXYDataset)
      requires Valid()
      requires forall k :: 0 <= k < |selection| ==> 0 <= selection[k] < |xySeriesCollection|
      ensures fresh(mydataset) && mydataset.Valid()
      ensures |mydataset.xySeriesCollection| == |selection|
      ensures forall k :: 0 <= k < |selection| ==>
                && mydataset.xySeriesCollection[k] == xySeriesCollection[selection[k]]
                && mydataset.linesVisible[k] == linesVisible[selection[k]]
                && mydataset.shapesVisible[k] == shapesVisible[selection[k]]
    {
      mydataset := new MyXYDataset.Default(wave, noisy);
      var originalSeriesCount := mydataset.SeriesCount();
      var i := 0;
      while i < originalSeriesCount
        invariant 0 <= i <= originalSeriesCount && mydataset.Valid()
        invariant |mydataset.xySeriesCollection| == originalSeriesCount - i
        invariant fresh(mydataset)
      {
        mydataset.RemoveSeries(originalSeriesCount - (i + 1));
        i := i + 1;
      }
      i := 0;
      while i < |selection|
        invariant 0 <= i <= |selection| && mydataset.Valid()
        invariant |mydataset.xySeriesCollection| == i
        invariant fresh(mydataset)
        invariant forall k :: 0 <= k < i ==>
                    && mydataset.xySeriesCollection[k] == xySeriesCollection[selection[k]]
                    && mydataset.linesVisible[k] == linesVisible[selection[k]]
                    && mydataset.shapesVisible[k] == shapesVisible[selection[k]]
      {
        var index := selection[i];
        mydataset.AddSeries(GetSeries(index), linesVisible[index], shapesVisible[index]);
        i := i + 1;
      }
    }

    /** Deletes position `index` from all three collections; later entries move down one. */
    method RemoveSeries(index: nat)
      requires Valid() && index < |xySeriesCollection|
      modifies this
      ensures Valid()
      ensures xySeriesCollection == old(xySeriesCollection[..index] + xySeriesCollection[index + 1..])
      ensures linesVisible == old(linesVisible[..index] + linesVisible[index + 1..])
      ensures shapesVisible == old(shapesVisible[..index] + shapesVisible[index + 1..])
    {
      xySeriesCollection := xySeriesCollection[..index] + xySeriesCollection[index + 1..];
      linesVisible := linesVisible[..index] + linesVisible[index + 1..];
      shapesVisible := shapesVisible[..index] + shapesVisible[index + 1..];
    }

    /** Drops every series and every flag. */
    method Clear()
      modifies this
      ensures Valid()
      ensures xySeriesCollection == [] && linesVisible == [] && shapesVisible == []
    {
      xySeriesCollection := [];
      shapesVisible := [];
      linesVisible := [];
    }

    /** The number of series, which is also the number of each kind of flag. */
    function SeriesCount(): (n: nat)
      reads this
      requires Valid()
      ensures n == |linesVisible| == |shapesVisible|
    {
      |xySeriesCollection|
    }

    /** A new dataset with the same series in the same order and the same flags, in
        collections of its own. */
    method Clone() returns (cloneDataset: MyXYDataset)
      requires Valid()
      ensures fresh(cloneDataset) && cloneDataset.Valid()
      ensures cloneDataset.xySeriesCollection == xySeriesCollection
      ensures cloneDataset.linesVisible == linesVisible
      ensures cloneDataset.shapesVisible == shapesVisible
    {
      var count := |xySeriesCollection|;
      var collection: seq<XYSeries> := [];
      var lines: seq<bool> := [];
      var shapes: seq<bool> := [];
      var i := 0;
      while i < count
        invariant 0 <= i <= count
        invariant collection == xySeriesCollection[..i]
        invariant lines == linesVisible[..i] && shapes == shapesVisible[..i]
      {
        collection := collection + [xySeriesCollection[i]];
        lines := lines + [linesVisible[i]];
        shapes := shapes + [shapesVisible[i]];
        i := i + 1;
      }
      assert collection == xySeriesCollection && lines == linesVisible && shapes == shapesVisible;
      cloneDataset := new MyXYDataset(collection, lines, shapes);
    }
  }

  /** What the getters read after `addSeries`: the new last index holds the added series and
      its two flags; every earlier index reads as before. */
  method AddSeriesReadBack(d: MyXYDataset, s: XYSeries, lineVisible: bool, shapeVisible: bool)
    requires d.Valid()
    modifies d
    ensures d.Valid() && d.SeriesCount() == old(d.SeriesCount()) + 1
    ensures var k := old(d.SeriesCount());
            d.GetSeries(k) == s && d.LineVisible(k) == lineVisible && d.ShapeVisible(k) == shapeVisible
    ensures forall i :: 0 <= i < old(d.SeriesCount()) ==>
              && d.GetSeries(i) == old(d.GetSeries(i))
              && d.LineVisible(i) == old(d.LineVisible(i))
              && d.ShapeVisible(i) == old(d.ShapeVisible(i))
  {
    d.AddSeries(s, lineVisible, shapeVisible);
  }

  /** What the getters read after `removeSeries(index)`: indices below `index` read as
      before, and each later index reads what the next one read before. */
  method RemoveSeriesReadBack(d: MyXYDataset, index: nat)
    requires d.Valid() && index < d.SeriesCount()
    modifies d
    ensures d.Valid() && d.SeriesCount() == old(d.SeriesCount()) - 1
    ensures forall i :: 0 <= i < index ==>
              && d.GetSeries(i) == old(d.GetSeries(i))
              && d.LineVisible(i) == old(d.LineVisible(i))
              && d.ShapeVisible(i) == old(d.ShapeVisible(i))
    ensures forall i :: index <= i < d.SeriesCount() ==>
              && d.GetSeries(i) == old(d.GetSeries(i + 1))
              && d.LineVisible(i) == old(d.LineVisible(i + 1))
              && d.ShapeVisible(i) == old(d.ShapeVisible(i + 1))
  {
    d.RemoveSeries(index);
  }

  /** What the getters of a selection read: position k of the new dataset reads what
      position `selection[k]` of this one reads. */
  method SelectSeriesReadBack(d: MyXYDataset, selection: seq<int>, wave: nat -> real, noisy: nat -> real)
    returns (picked: MyXYDataset)
    requires d.Valid()
    requires forall k :: 0 <= k < |selection| ==> 0 <= selection[k] < |d.xySeriesCollection|
    ensures fresh(picked) && picked.Valid() && picked.SeriesCount() == |selection|
    ensures forall k :: 0 <= k < |selection| ==>
              && picked.GetSeries(k) == d.GetSeries(selection[k])
              && picked.LineVisible(k) == d.LineVisible(selection[k])
              && picked.ShapeVisible(k) == d.ShapeVisible(selection[k])
  {
    picked := d.SelectSeries(selection, wave, noisy);
  }

  /** A clone can be changed without touching the dataset it was cloned from. */
  method CloneThenChange(original: MyXYDataset, extra: XYSeries) returns (copy: MyXYDataset)
    requires original.Valid()
    ensures fresh(copy) && copy.Valid()
    ensures |copy.xySeriesCollection| == |original.xySeriesCollection|
    ensures original.xySeriesCollection == old(original.xySeriesCollection)
    ensures original.linesVisible == old(original.linesVisible)
    ensures original.shapesVisible == old(original.shapesVisible)
  {
    copy := original.Clone();
    copy.AddSeries(extra, true, true);
    copy.RemoveSeries(0);
  }
}

/**
 * What both exporters send down the metric channel: a sample of one
 * descriptor, with a value type, a value and its label values. The channel
 * itself is modelled as the sequence of samples sent, in sending order.
 */
module Metrics {

  /** Go's int32, the type of gopsutil's `Process.Pid`. */
  newtype int32 = x: int | -0x8000_0000 <= x < 0x8000_0000

  type Pid = int32

  /** prometheus.CounterValue or prometheus.GaugeValue. */
  datatype ValueType = CounterValue | GaugeValue

  /**
   * One prometheus.MustNewConstMetric(desc, valueType, value, labels...).
   * `D` is the exporter's set of descriptors; values are exact reals.
   */
  datatype Sample<D> = Sample(desc: D, valueType: ValueType, value: real, labels: seq<string>)

  /** The descriptors of `samples`, in order. */
  function Descs<D>(samples: seq<Sample<D>>): (ds: seq<D>)
    ensures |ds| == |samples|
    ensures forall i :: 0 <= i < |samples| ==> ds[i] == samples[i].desc
  {
    if samples == [] then [] else Descs(samples[..|samples| - 1]) + [samples[|samples| - 1].desc]
  }

  /** Sending `a` and then `b` sends the descriptors of `a` and then those of `b`. */
  lemma DescsAppend<D>(a: seq<Sample<D>>, b: seq<Sample<D>>)
    ensures Descs(a + b) == Descs(a) + Descs(b)
  {
  }

  /** How many samples of descriptor `d` the sequence holds. */
  function CountOf<D(==)>(samples: seq<Sample<D>>, d: D): nat {
    multiset(Descs(samples))[d]
  }

  /** A descriptor that is counted has a sample in the sequence, and one that is not has none. */
  lemma CountOfWitness<D>(samples: seq<Sample<D>>, d: D)
    ensures CountOf(samples, d) > 0 <==> exists s :: s in samples && s.desc == d
  {
    var ds := Descs(samples);
    if CountOf(samples, d) > 0 {
      assert d in multiset(ds);
      var i :| 0 <= i < |ds| && ds[i] == d;
      assert samples[i] in samples;
    }
    if s :| s in samples && s.desc == d {
      var i :| 0 <= i < |samples| && samples[i] == s;
      assert ds[i] == d;
    }
  }

  /** One sample for a condition that holds, none for one that does not. */
  function OneIf(b: bool): nat {
    if b then 1 else 0
  }
}

/**
 * What the YOLO models hand back, reduced to plain values, and the two ways
 * the reports print a confidence.
 */
module Vision {
  import opened Text

  /**
   * A model probability in ten-thousandths (0.8123 is 8123), so that
   * `conf * 100` printed with two decimals is exactly `c` hundredths of a percent.
   */
  type Conf = c: int | 0 <= c <= 10000

  /** 95 percent, the confidence from which a classification names a single class. */
  const Threshold: Conf := 9500

  /** `f"{conf * 100:.2f}%"` */
  function Percent(c: Conf): (s: string)
    ensures '\n' !in s
  {
    FormatFixed2(c) + "%"
  }

  /** `f"{conf:.2f}"`: the probability itself with two decimals, rounded half up. */
  function Fraction(c: Conf): (s: string)
    ensures '\n' !in s
  {
    FormatFixed2((c + 50) / 100)
  }

  /**
   * The `probs` of a classification result: the index of the top class, its
   * confidence, the confidences of the five best classes in rank order, and
   * the probability of every class in index order.
   */
  datatype Probs = Probs(top1: nat, top1conf: Conf, top5conf: seq<Conf>, data: seq<Conf>)
}

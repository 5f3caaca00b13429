/** The PRU alert record: one byte, served to the transmitter as it is. */
module Alert {

  class PruAlert {
    var alert: bv8

    constructor (value: bv8)
      ensures alert == value
    {
      alert := value;
    }

    method SetValue(value: bv8)
      modifies this
      ensures alert == value
      ensures Value() == [value]
    {
      alert := value;
    }

    /** The record as sent: the single alert byte. */
    function Value(): (r: seq<bv8>)
      reads this
      ensures |r| == 1 && r[0] == alert
    {
      [alert]
    }
  }
}

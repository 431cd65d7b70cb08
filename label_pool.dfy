/** `LabelPool`: a bounded FIFO pool of floating-score labels, so that
    labels are reused rather than reallocated. */
module LabelPooling {
  import opened Wrappers
  import opened Awt

  const MaxPoolSize := 10

  datatype Font = Font(name: string, bold: bool, size: nat)

  /** The font `getLabel` gives a label it makes. */
  const LabelFont := Font("Segoe UI", true, 20)

  /** The label state the pool touches. `None` for the foreground or the
      font stands for the look-and-feel default. */
  class Label {
    var text: string
    var foreground: Option<Color>
    var x: int
    var y: int
    var width: int
    var height: int
    var font: Option<Font>
    var centered: bool

    /** `new JLabel()`: empty, at the origin, with no size. */
    constructor ()
      ensures text == "" && foreground == None && font == None && !centered
      ensures x == 0 && y == 0 && width == 0 && height == 0
    {
      text := "";
      foreground := None;
      x, y, width, height := 0, 0, 0, 0;
      font := None;
      centered := false;
    }
  }

  class LabelPool {
    var pool: seq<Label>

    ghost predicate Valid()
      reads this
    {
      |pool| <= MaxPoolSize
    }

    constructor ()
      ensures pool == [] && Valid()
    {
      pool := [];
    }

    /** `getLabel`: the label at the head of the queue, or, when the pool is
        empty, a new bold, centred label. */
    method GetLabel() returns (taken: Label)
      requires Valid()
      modifies this
      ensures Valid()
      ensures old(pool) != [] ==> taken == old(pool)[0] && pool == old(pool)[1..]
      ensures old(pool) == [] ==> pool == [] && fresh(taken)
      ensures old(pool) == [] ==> taken.text == "" && taken.font == Some(LabelFont) && taken.centered
    {
      if pool != [] {
        taken := pool[0];
        pool := pool[1..];
      } else {
        taken := new Label();
        taken.font := Some(LabelFont);
        taken.centered := true;
      }
    }

    /** `returnLabel`: below capacity, the label is cleared (empty text,
        black, at the origin, 50 x 30) and queued at the tail; a full pool
        leaves both the pool and the label untouched. */
    method ReturnLabel(returned: Label)
      requires Valid()
      modifies this, returned
      ensures Valid()
      ensures |old(pool)| < MaxPoolSize ==> pool == old(pool) + [returned]
      ensures |old(pool)| < MaxPoolSize ==>
        returned.text == "" && returned.foreground == Some(Black) &&
        returned.x == 0 && returned.y == 0 && returned.width == 50 && returned.height == 30 &&
        returned.font == old(returned.font) && returned.centered == old(returned.centered)
      ensures |old(pool)| >= MaxPoolSize ==> pool == old(pool) && unchanged(returned)
    {
      if |pool| < MaxPoolSize {
        returned.text := "";
        returned.foreground := Some(Black);
        returned.x, returned.y := 0, 0;
        returned.width, returned.height := 50, 30;
        pool := pool + [returned];
      }
    }
  }

  /** A label handed back to an empty pool is the next one handed out,
      cleared, and the pool is empty again. */
  method Recycle(pool: LabelPool, returned: Label) returns (got: Label)
    requires pool.Valid() && pool.pool == []
    modifies pool, returned
    ensures got == returned && pool.pool == []
    ensures got.text == "" && got.foreground == Some(Black)
    ensures got.x == 0 && got.y == 0 && got.width == 50 && got.height == 30
  {
    pool.ReturnLabel(returned);
    got := pool.GetLabel();
  }
}

/** The fourteen text areas the script registers with `add_text`, and which
    metric each data slot shows. */
module Slots {

  const DATA_FONT: string := "NuSans-12.bdf"
  const LABEL_FONT: string := "NuSans-10.bdf"

  const SLOT_COUNT: nat := 14
  const TIMESTAMP_SLOT: nat := 12
  const BATTERY_SLOT: nat := 13

  /** One `add_text` registration: font, position and whether it holds data. */
  datatype SlotSpec = SlotSpec(font: string, x: int, y: int, isData: bool)

  /** The two regions the data slots show: Canada in the left column, the
      selected province in the right one. */
  datatype Region = Canada | Province

  /** The registrations in the order the script makes them; slot i is the
      i-th registration. */
  function SlotTable(): (t: seq<SlotSpec>)
    ensures |t| == SLOT_COUNT
    ensures forall i :: 0 <= i < 12 ==> t[i].isData && t[i].font == DATA_FONT
    ensures forall i :: 0 <= i < 12 ==> t[i].x == (if i < 6 then 120 else 210)
    ensures forall i :: 0 <= i < 12 ==> t[i].y == 42 + 12 * (i % 6)
    ensures t[TIMESTAMP_SLOT] == SlotSpec(LABEL_FONT, 10, 118, false)
    ensures t[BATTERY_SLOT] == SlotSpec(LABEL_FONT, 235, 118, false)
  {
    [ SlotSpec(DATA_FONT, 120, 42, true), SlotSpec(DATA_FONT, 120, 54, true),
      SlotSpec(DATA_FONT, 120, 66, true), SlotSpec(DATA_FONT, 120, 78, true),
      SlotSpec(DATA_FONT, 120, 90, true), SlotSpec(DATA_FONT, 120, 102, true),
      SlotSpec(DATA_FONT, 210, 42, true), SlotSpec(DATA_FONT, 210, 54, true),
      SlotSpec(DATA_FONT, 210, 66, true), SlotSpec(DATA_FONT, 210, 78, true),
      SlotSpec(DATA_FONT, 210, 90, true), SlotSpec(DATA_FONT, 210, 102, true),
      SlotSpec(LABEL_FONT, 10, 118, false),
      SlotSpec(LABEL_FONT, 235, 118, false) ]
  }

  /** The slot showing field k (in `get_data` order) of a region. */
  function SlotOf(region: Region, k: nat): (i: nat)
    requires k < 6
    ensures i < 12 && SlotTable()[i].isData
    ensures (i < 6) <==> region == Canada
    ensures SlotTable()[i].y == 42 + 12 * k
  {
    (if region == Canada then 0 else 6) + k
  }

  /** The region and field a data slot shows. */
  function FieldAt(i: nat): (rf: (Region, nat))
    requires i < 12
    ensures rf.1 < 6 && SlotOf(rf.0, rf.1) == i
  {
    if i < 6 then (Canada, i) else (Province, i - 6)
  }

  /** Each (region, field) pair has its own slot: the binding is one-to-one. */
  lemma SlotOfInjective(r1: Region, k1: nat, r2: Region, k2: nat)
    requires k1 < 6 && k2 < 6
    requires SlotOf(r1, k1) == SlotOf(r2, k2)
    ensures r1 == r2 && k1 == k2
  {
  }
}

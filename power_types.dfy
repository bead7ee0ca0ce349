/** PowerControlType: a kind of power-control device and its display name. */
module PowerTypes {
  import opened Wrappers
  import opened Decimal

  /** max_outlets == 0 means the type has no fixed outlet count (IPMI). */
  datatype PowerControlType = PowerControlType(
    agent: string,
    make: Option<string>,
    model: Option<string>,
    maxOutlets: nat,
    defaultPort: nat,
    defaultUsername: Option<string>,
    defaultPassword: Option<string>,
    defaultOptions: Option<string>)

  /** Python's "%s" of a nullable string field: None prints as "None". */
  function Str(s: Option<string>): string {
    match s
    case None => "None"
    case Some(v) => v
  }

  predicate EndsWith(s: string, suffix: string) {
    |suffix| <= |s| && s[|s| - |suffix|..] == suffix
  }

  /** The count shown in parentheses: the outlet count, or "IPMI" for a type without one. */
  function CountLabel(maxOutlets: nat): string {
    if maxOutlets > 0 then NatToString(maxOutlets) else "IPMI"
  }

  /** The make as shown: the make, or a placeholder when it is empty. */
  function MakeLabel(t: PowerControlType): string {
    if t.make != Some("") then Str(t.make) else "Unknown Make"
  }

  function ModelLabel(t: PowerControlType): string {
    if t.model != Some("") then Str(t.model) else "Unknown Model"
  }

  /** The count in parentheses, as the name ends. */
  function CountPart(maxOutlets: nat): string {
    " (" + CountLabel(maxOutlets) + ")"
  }

  /** "<make> <model> (<count>)" */
  function DisplayName(t: PowerControlType): string {
    MakeLabel(t) + " " + ModelLabel(t) + CountPart(t.maxOutlets)
  }

  /**
   * The display name starts with the make (or "Unknown Make" for an empty
   * one), follows it with the model (or "Unknown Model" for an empty one),
   * and ends with the outlet count in parentheses, or "(IPMI)" for a type
   * without a fixed count.
   */
  lemma DisplayNameShape(t: PowerControlType)
    ensures t.make == Some("") ==> "Unknown Make " <= DisplayName(t)
    ensures t.make != Some("") ==> Str(t.make) + " " <= DisplayName(t)
    ensures t.model == Some("") ==> EndsWith(DisplayName(t), " Unknown Model" + CountPart(t.maxOutlets))
    ensures t.model != Some("") ==> EndsWith(DisplayName(t), " " + Str(t.model) + CountPart(t.maxOutlets))
    ensures t.maxOutlets == 0 ==> EndsWith(DisplayName(t), " (IPMI)")
    ensures t.maxOutlets > 0 ==> EndsWith(DisplayName(t), " (" + NatToString(t.maxOutlets) + ")")
  {
    DisplayNameParts(t);
    if t.make == Some("") {
      assert MakeLabel(t) + " " == "Unknown Make ";
    }
    if t.model == Some("") {
      assert " " + ModelLabel(t) == " Unknown Model";
    }
    if t.maxOutlets == 0 {
      assert CountPart(t.maxOutlets) == " (IPMI)";
    }
  }

  /** The same, in terms of the make, model and count labels. */
  lemma DisplayNameParts(t: PowerControlType)
    ensures MakeLabel(t) + " " <= DisplayName(t)
    ensures EndsWith(DisplayName(t), " " + ModelLabel(t) + CountPart(t.maxOutlets))
    ensures EndsWith(DisplayName(t), CountPart(t.maxOutlets))
  {
    Joined(MakeLabel(t), " ", ModelLabel(t), CountPart(t.maxOutlets));
  }

  /** Of four pieces joined, the first two lead and the last three and the last one close. */
  lemma Joined(a: string, b: string, c: string, d: string)
    ensures a + b <= a + b + c + d
    ensures EndsWith(a + b + c + d, b + c + d)
    ensures EndsWith(a + b + c + d, d)
  {
    var s := a + b + c + d;
    assert s == (a + b) + (c + d);
    assert s[|a|..] == b + c + d;
    assert s[|s| - |d|..] == d;
  }

  /**
   * The count label never confuses the two cases: "IPMI" reads as no number,
   * and a positive outlet count reads back as itself.
   */
  lemma {:induction false} CountLabelReadsBack(n: nat)
    ensures ParseNat(CountLabel(n)) == if n == 0 then None else Some(n)
    ensures CountLabel(n) == "IPMI" <==> n == 0
  {
    if n > 0 {
      ParseNatToString(n);
      assert CountLabel(n)[0] != 'I';
    } else {
      assert !IsDigit("IPMI"[3]);
    }
  }
}

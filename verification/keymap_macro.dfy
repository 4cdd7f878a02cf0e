/** The KEYMAP macro of the Sun Type-3 converter (converter/sun3_usb/keymap.c).

    The macro takes 95 positional keycode arguments. Each formal parameter is named
    after the Sun scan code of its key (`K01`, `K03`, ..., `K7A`, `K13`), and the macro
    body writes the argument bound to `Kxy` into one cell of the 16 x 8 switch matrix,
    filling every other cell with `KC_NO`. This module models the parameter list, the
    body, the binding of names to positions and the resulting matrix, and proves the
    layout rule: `Kxy` lands at row 0xxy / 8, column 0xxy % 8. */
module KeymapMacro {
  import opened KeyCodes
  import opened Counting

  /** MATRIX_ROWS and MATRIX_COLS of the converter. */
  const Rows: nat := 16
  const Cols: nat := 8

  /** One layer: Rows rows of Cols keycodes (see IsMatrix). */
  type Matrix = seq<seq<KeyCode>>

  predicate IsMatrix(m: Matrix) {
    |m| == Rows && forall r :: 0 <= r < |m| ==> |m[r]| == Cols
  }

  /** The scan code of the key wired to cell (row, col). */
  function CellCode(row: nat, col: nat): nat {
    Cols * row + col
  }

  // The formal parameters of KEYMAP, one constant per line of the macro header,
  // each parameter given by the scan code in its name.
  const ParamLine1: seq<nat> :=
    [0x01, 0x03, 0x05, 0x06, 0x08, 0x0A, 0x0C, 0x0E, 0x10, 0x11, 0x12, 0x2B, 0x15, 0x16, 0x17]
  const ParamLine2: seq<nat> :=
    [0x19, 0x1A, 0x1D, 0x1E, 0x1F, 0x20, 0x21, 0x22, 0x23, 0x24, 0x25, 0x26, 0x27, 0x28, 0x29, 0x58, 0x2A, 0x2D, 0x2E, 0x2F]
  const ParamLine3: seq<nat> :=
    [0x31, 0x33, 0x35, 0x36, 0x37, 0x38, 0x39, 0x3A, 0x3B, 0x3C, 0x3D, 0x3E, 0x3F, 0x40, 0x41, 0x42, 0x44, 0x45, 0x46]
  const ParamLine4: seq<nat> :=
    [0x48, 0x49, 0x4C, 0x4D, 0x4E, 0x4F, 0x50, 0x51, 0x52, 0x53, 0x54, 0x55, 0x56, 0x57, 0x59, 0x5B, 0x5C, 0x5D]
  const ParamLine5: seq<nat> :=
    [0x5F, 0x61, 0x63, 0x64, 0x65, 0x66, 0x67, 0x68, 0x69, 0x6A, 0x6B, 0x6C, 0x6D, 0x6E, 0x6F, 0x70, 0x71, 0x72]
  const ParamLine6: seq<nat> :=
    [0x77, 0x78, 0x79, 0x7A, 0x13]

  /** All 95 formal parameters in declaration order. */
  const Params: seq<nat> :=
    ParamLine1 + ParamLine2 + ParamLine3 + ParamLine4 + ParamLine5 + ParamLine6

  /** Binding of parameter names to argument positions: the position of the formal
      parameter named after `code`, or |Params| (95) when no parameter has that name. */
  function ParamIndex(code: nat): nat {
    match code
    // line 1 of the parameter list
    case 0x01 => 0  case 0x03 => 1  case 0x05 => 2  case 0x06 => 3  case 0x08 => 4
    case 0x0A => 5  case 0x0C => 6  case 0x0E => 7  case 0x10 => 8  case 0x11 => 9
    case 0x12 => 10  case 0x2B => 11  case 0x15 => 12  case 0x16 => 13  case 0x17 => 14
    // line 2 of the parameter list
    case 0x19 => 15  case 0x1A => 16  case 0x1D => 17  case 0x1E => 18  case 0x1F => 19
    case 0x20 => 20  case 0x21 => 21  case 0x22 => 22  case 0x23 => 23  case 0x24 => 24
    case 0x25 => 25  case 0x26 => 26  case 0x27 => 27  case 0x28 => 28  case 0x29 => 29
    case 0x58 => 30  case 0x2A => 31  case 0x2D => 32  case 0x2E => 33  case 0x2F => 34
    // line 3 of the parameter list
    case 0x31 => 35  case 0x33 => 36  case 0x35 => 37  case 0x36 => 38  case 0x37 => 39
    case 0x38 => 40  case 0x39 => 41  case 0x3A => 42  case 0x3B => 43  case 0x3C => 44
    case 0x3D => 45  case 0x3E => 46  case 0x3F => 47  case 0x40 => 48  case 0x41 => 49
    case 0x42 => 50  case 0x44 => 51  case 0x45 => 52  case 0x46 => 53
    // line 4 of the parameter list
    case 0x48 => 54  case 0x49 => 55  case 0x4C => 56  case 0x4D => 57  case 0x4E => 58
    case 0x4F => 59  case 0x50 => 60  case 0x51 => 61  case 0x52 => 62  case 0x53 => 63
    case 0x54 => 64  case 0x55 => 65  case 0x56 => 66  case 0x57 => 67  case 0x59 => 68
    case 0x5B => 69  case 0x5C => 70  case 0x5D => 71
    // line 5 of the parameter list
    case 0x5F => 72  case 0x61 => 73  case 0x63 => 74  case 0x64 => 75  case 0x65 => 76
    case 0x66 => 77  case 0x67 => 78  case 0x68 => 79  case 0x69 => 80  case 0x6A => 81
    case 0x6B => 82  case 0x6C => 83  case 0x6D => 84  case 0x6E => 85  case 0x6F => 86
    case 0x70 => 87  case 0x71 => 88  case 0x72 => 89
    // line 6 of the parameter list
    case 0x77 => 90  case 0x78 => 91  case 0x79 => 92  case 0x7A => 93  case 0x13 => 94
    case _ => 95
  }

  /** One cell of the macro body: the literal KC_NO, or `KC_##Kxy`, the argument
      bound to the parameter named after scan code `code`. */
  datatype Slot = NoKey | Arg(code: nat)

  /** The macro body, row by row. */
  const Body: seq<seq<Slot>> :=
    [
      [NoKey    , Arg(0x01), NoKey    , Arg(0x03), NoKey    , Arg(0x05), Arg(0x06), NoKey    ],
      [Arg(0x08), NoKey    , Arg(0x0A), NoKey    , Arg(0x0C), NoKey    , Arg(0x0E), NoKey    ],
      [Arg(0x10), Arg(0x11), Arg(0x12), Arg(0x13), NoKey    , Arg(0x15), Arg(0x16), Arg(0x17)],
      [NoKey    , Arg(0x19), Arg(0x1A), NoKey    , NoKey    , Arg(0x1D), Arg(0x1E), Arg(0x1F)],
      [Arg(0x20), Arg(0x21), Arg(0x22), Arg(0x23), Arg(0x24), Arg(0x25), Arg(0x26), Arg(0x27)],
      [Arg(0x28), Arg(0x29), Arg(0x2A), Arg(0x2B), NoKey    , Arg(0x2D), Arg(0x2E), Arg(0x2F)],
      [NoKey    , Arg(0x31), NoKey    , Arg(0x33), NoKey    , Arg(0x35), Arg(0x36), Arg(0x37)],
      [Arg(0x38), Arg(0x39), Arg(0x3A), Arg(0x3B), Arg(0x3C), Arg(0x3D), Arg(0x3E), Arg(0x3F)],
      [Arg(0x40), Arg(0x41), Arg(0x42), NoKey    , Arg(0x44), Arg(0x45), Arg(0x46), NoKey    ],
      [Arg(0x48), Arg(0x49), NoKey    , NoKey    , Arg(0x4C), Arg(0x4D), Arg(0x4E), Arg(0x4F)],
      [Arg(0x50), Arg(0x51), Arg(0x52), Arg(0x53), Arg(0x54), Arg(0x55), Arg(0x56), Arg(0x57)],
      [Arg(0x58), Arg(0x59), NoKey    , Arg(0x5B), Arg(0x5C), Arg(0x5D), NoKey    , Arg(0x5F)],
      [NoKey    , Arg(0x61), NoKey    , Arg(0x63), Arg(0x64), Arg(0x65), Arg(0x66), Arg(0x67)],
      [Arg(0x68), Arg(0x69), Arg(0x6A), Arg(0x6B), Arg(0x6C), Arg(0x6D), Arg(0x6E), Arg(0x6F)],
      [Arg(0x70), Arg(0x71), Arg(0x72), NoKey    , NoKey    , NoKey    , NoKey    , Arg(0x77)],
      [Arg(0x78), Arg(0x79), Arg(0x7A), NoKey    , NoKey    , NoKey    , NoKey    , NoKey    ]
    ]

  // ---------------------------------------------------------------------------
  // Facts about the parameter list and the body, checked against the literals.

  // ParamIndex binds each parameter of one header line to its position.

  lemma ParamLine1Binds()
    ensures forall i :: 0 <= i < |ParamLine1| ==> ParamIndex(ParamLine1[i]) == i
  {}

  lemma ParamLine2Binds()
    ensures forall i :: 0 <= i < |ParamLine2| ==> ParamIndex(ParamLine2[i]) == 15 + i
  {}

  lemma ParamLine3Binds()
    ensures forall i :: 0 <= i < |ParamLine3| ==> ParamIndex(ParamLine3[i]) == 35 + i
  {}

  lemma ParamLine4Binds()
    ensures forall i :: 0 <= i < |ParamLine4| ==> ParamIndex(ParamLine4[i]) == 54 + i
  {}

  lemma ParamLine5Binds()
    ensures forall i :: 0 <= i < |ParamLine5| ==> ParamIndex(ParamLine5[i]) == 72 + i
  {}

  lemma ParamLine6Binds()
    ensures forall i :: 0 <= i < |ParamLine6| ==> ParamIndex(ParamLine6[i]) == 90 + i
  {}

  /** Each formal parameter is bound to its own position: the macro has 95 parameters
      and no two of them share a name. */
  lemma ParamIndexInvertsParams()
    ensures |Params| == 95
    ensures forall i :: 0 <= i < |Params| ==> ParamIndex(Params[i]) == i
  {
    ParamLine1Binds();
    ParamLine2Binds();
    ParamLine3Binds();
    ParamLine4Binds();
    ParamLine5Binds();
    ParamLine6Binds();
  }

  /** No scan code names two parameters. */
  lemma ParamsDistinct()
    ensures Distinct(Params)
  {
    ParamIndexInvertsParams();
    forall i, j | 0 <= i < j < |Params|
      ensures Params[i] != Params[j]
    {
      assert ParamIndex(Params[i]) == i && ParamIndex(Params[j]) == j;
    }
  }

  /** The body is Rows x Cols, and every cell holds KC_NO or the parameter named
      after the cell's own scan code. */
  lemma BodyFollowsScanCodes()
    ensures |Body| == Rows
    ensures forall r :: 0 <= r < Rows ==> |Body[r]| == Cols
    ensures forall r, c :: 0 <= r < Rows && 0 <= c < Cols ==>
              Body[r][c] == NoKey || Body[r][c] == Arg(CellCode(r, c))
  {}

  // The body pastes each parameter of one header line into the cell of its scan code.

  lemma ParamLine1Placed()
    ensures forall i :: 0 <= i < |ParamLine1| ==>
              ParamLine1[i] < Rows * Cols && Body[ParamLine1[i] / Cols][ParamLine1[i] % Cols] == Arg(ParamLine1[i])
  {}

  lemma ParamLine2Placed()
    ensures forall i :: 0 <= i < |ParamLine2| ==>
              ParamLine2[i] < Rows * Cols && Body[ParamLine2[i] / Cols][ParamLine2[i] % Cols] == Arg(ParamLine2[i])
  {}

  lemma ParamLine3Placed()
    ensures forall i :: 0 <= i < |ParamLine3| ==>
              ParamLine3[i] < Rows * Cols && Body[ParamLine3[i] / Cols][ParamLine3[i] % Cols] == Arg(ParamLine3[i])
  {}

  lemma ParamLine4Placed()
    ensures forall i :: 0 <= i < |ParamLine4| ==>
              ParamLine4[i] < Rows * Cols && Body[ParamLine4[i] / Cols][ParamLine4[i] % Cols] == Arg(ParamLine4[i])
  {}

  lemma ParamLine5Placed()
    ensures forall i :: 0 <= i < |ParamLine5| ==>
              ParamLine5[i] < Rows * Cols && Body[ParamLine5[i] / Cols][ParamLine5[i] % Cols] == Arg(ParamLine5[i])
  {}

  lemma ParamLine6Placed()
    ensures forall i :: 0 <= i < |ParamLine6| ==>
              ParamLine6[i] < Rows * Cols && Body[ParamLine6[i] / Cols][ParamLine6[i] % Cols] == Arg(ParamLine6[i])
  {}

  /** Every formal parameter is pasted into the body, in the cell of its scan code. */
  lemma BodyUsesEveryParam()
    ensures forall i :: 0 <= i < |Params| ==>
              Params[i] < Rows * Cols && Body[Params[i] / Cols][Params[i] % Cols] == Arg(Params[i])
  {
    ParamLine1Placed();
    ParamLine2Placed();
    ParamLine3Placed();
    ParamLine4Placed();
    ParamLine5Placed();
    ParamLine6Placed();
  }

  /** A name bound by ParamIndex is the parameter at that position. */
  lemma ParamIndexSound(code: nat)
    requires ParamIndex(code) < |Params|
    ensures Params[ParamIndex(code)] == code
  {}

  /** Every name the body pastes is a formal parameter. */
  lemma BodyUsesOnlyParams()
    ensures forall r, c :: 0 <= r < Rows && 0 <= c < Cols && Body[r][c].Arg? ==>
              ParamIndex(Body[r][c].code) < |Params|
  {}

  // ---------------------------------------------------------------------------
  // Expansion of the macro.

  /** `KC_##Kxy` with the arguments `args` bound: the argument in the position
      of parameter Kxy, or KC_NO for a literal KC_NO. */
  function Paste(slot: Slot, args: seq<KeyCode>): KeyCode
    requires |args| == |Params|
    requires slot.Arg? ==> ParamIndex(slot.code) < |Params|
  {
    match slot
    case NoKey => NO
    case Arg(code) => args[ParamIndex(code)]
  }

  /** The macro body with the arguments `args` substituted, cell by cell. */
  function Expand(args: seq<KeyCode>): (m: Matrix)
    requires |args| == |Params|
    ensures IsMatrix(m)
  {
    BodyFollowsScanCodes();
    BodyUsesOnlyParams();
    seq(Rows, r requires 0 <= r < Rows =>
      seq(Cols, c requires 0 <= c < Cols => Paste(Body[r][c], args)))
  }

  /** Expand writes each argument into the cell of its parameter's scan code. */
  lemma ExpandPlacesParams(args: seq<KeyCode>)
    requires |args| == |Params|
    ensures forall i :: 0 <= i < |Params| ==>
              Params[i] < Rows * Cols && Expand(args)[Params[i] / Cols][Params[i] % Cols] == args[i]
  {
    BodyUsesEveryParam();
    ParamIndexInvertsParams();
    forall i | 0 <= i < |Params|
      ensures Params[i] < Rows * Cols && Expand(args)[Params[i] / Cols][Params[i] % Cols] == args[i]
    {
      assert Body[Params[i] / Cols][Params[i] % Cols] == Arg(Params[i]);
    }
  }

  /** Expand leaves KC_NO in every cell whose scan code names no parameter. */
  lemma ExpandEmptyCells(args: seq<KeyCode>)
    requires |args| == |Params|
    ensures forall r, c :: 0 <= r < Rows && 0 <= c < Cols && CellCode(r, c) !in Params ==>
              Expand(args)[r][c] == NO
  {
    BodyFollowsScanCodes();
    BodyUsesOnlyParams();
    forall r, c | 0 <= r < Rows && 0 <= c < Cols && CellCode(r, c) !in Params
      ensures Expand(args)[r][c] == NO
    {
      if Body[r][c].Arg? {
        ParamIndexSound(CellCode(r, c));
      }
    }
  }

  /** KEYMAP(args): the matrix the macro expands to. The argument for Kxy lands at
      row 0xxy / 8, column 0xxy % 8, and every cell no parameter is named after is
      KC_NO. */
  function Keymap(args: seq<KeyCode>): (m: Matrix)
    requires |args| == |Params|
    ensures IsMatrix(m)
    ensures forall i :: 0 <= i < |Params| ==>
              Params[i] < Rows * Cols && m[Params[i] / Cols][Params[i] % Cols] == args[i]
    ensures forall r, c :: 0 <= r < Rows && 0 <= c < Cols && CellCode(r, c) !in Params ==>
              m[r][c] == NO
  {
    ExpandPlacesParams(args);
    ExpandEmptyCells(args);
    Expand(args)
  }

  /** Reading a cell back: a cell holds the argument of the parameter named after
      the cell's scan code, and KC_NO when there is no such parameter. */
  lemma KeymapCell(args: seq<KeyCode>, row: nat, col: nat)
    requires |args| == |Params|
    requires row < Rows && col < Cols
    ensures CellCode(row, col) in Params ==>
              ParamIndex(CellCode(row, col)) < |Params| && Keymap(args)[row][col] == args[ParamIndex(CellCode(row, col))]
    ensures CellCode(row, col) !in Params ==> Keymap(args)[row][col] == NO
  {
    var k := CellCode(row, col);
    if k in Params {
      ParamIndexInvertsParams();
      var i :| 0 <= i < |Params| && Params[i] == k;
      assert ParamIndex(k) == i;
      assert k / Cols == row && k % Cols == col;
    }
  }

  /** A cell that is not KC_NO holds the argument whose parameter is named after
      the cell's scan code. */
  lemma KeymapInverse(args: seq<KeyCode>, row: nat, col: nat)
    requires |args| == |Params|
    requires row < Rows && col < Cols
    requires Keymap(args)[row][col] != NO
    ensures exists i :: 0 <= i < |Params| && Params[i] == CellCode(row, col) && Keymap(args)[row][col] == args[i]
  {
    KeymapCell(args, row, col);
    var i := ParamIndex(CellCode(row, col));
    ParamIndexSound(CellCode(row, col));
    assert Params[i] == CellCode(row, col);
  }

  /** Different parameters are placed in different cells, so no argument
      overwrites another. */
  lemma PlacementInjective()
    ensures forall i, j :: 0 <= i < j < |Params| ==>
              (Params[i] / Cols, Params[i] % Cols) != (Params[j] / Cols, Params[j] % Cols)
  {
    ParamsDistinct();
    forall i, j | 0 <= i < j < |Params|
      ensures (Params[i] / Cols, Params[i] % Cols) != (Params[j] / Cols, Params[j] % Cols)
    {
      assert Params[i] == Cols * (Params[i] / Cols) + Params[i] % Cols;
      assert Params[j] == Cols * (Params[j] / Cols) + Params[j] % Cols;
    }
  }

  /** The scan codes of the cells no parameter addresses. */
  ghost function EmptyCodes(): set<int> {
    Range(Rows * Cols) - Elements(Params)
  }

  /** The 95 parameters address 95 of the 128 cells; the other 33 cells are
      KC_NO whatever the arguments. */
  lemma CellCounts()
    ensures |Elements(Params)| == 95
    ensures Elements(Params) <= Range(Rows * Cols)
    ensures |EmptyCodes()| == 33
    ensures forall args, k :: |args| == |Params| && k in EmptyCodes() ==>
              Keymap(args)[k / Cols][k % Cols] == NO
  {
    ParamIndexInvertsParams();
    ParamsDistinct();
    DistinctElementsCount(Params);
    BodyUsesEveryParam();
    RangeCount(Rows * Cols);
    assert Elements(Params) <= Range(Rows * Cols);
    assert Range(Rows * Cols) == EmptyCodes() + Elements(Params);
    forall args, k | |args| == |Params| && k in EmptyCodes()
      ensures Keymap(args)[k / Cols][k % Cols] == NO
    {
      assert CellCode(k / Cols, k % Cols) == k;
    }
  }

  /** When no argument is KC_NO, the KC_NO cells of the expansion are exactly the
      unaddressed ones. */
  lemma EmptyCellsExactly(args: seq<KeyCode>)
    requires |args| == |Params|
    requires forall i :: 0 <= i < |args| ==> args[i] != NO
    ensures forall k :: k in Range(Rows * Cols) ==> (Keymap(args)[k / Cols][k % Cols] == NO <==> k in EmptyCodes())
  {
    forall k | k in Range(Rows * Cols)
      ensures Keymap(args)[k / Cols][k % Cols] == NO <==> k in EmptyCodes()
    {
      assert CellCode(k / Cols, k % Cols) == k;
      KeymapCell(args, k / Cols, k % Cols);
    }
  }

  /** The placements called out for this converter: K2B at (5, 3), K13 at (2, 3),
      K58 at (11, 0) and K7A at (15, 2). */
  lemma PlacementExamples(args: seq<KeyCode>)
    requires |args| == |Params|
    ensures Keymap(args)[5][3] == args[11]
    ensures Keymap(args)[2][3] == args[94]
    ensures Keymap(args)[11][0] == args[30]
    ensures Keymap(args)[15][2] == args[93]
  {
    ParamIndexInvertsParams();
    assert Params[11] == 0x2B && Params[94] == 0x13 && Params[30] == 0x58 && Params[93] == 0x7A;
  }
}

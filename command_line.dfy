/**
 * The command-line scanner of the smart-light client: `succeedParseCommand`
 * walks the argument array once, takes the argument after `-d` as the device
 * id and the argument after `-t` as the device token, and accepts only four
 * arguments that leave both identifiers set.
 *
 * The two identifiers are static fields of the program that start out null;
 * they are modelled as `Option<string>` values, `None` for null.
 */
module CommandLine {

  import opened Wrappers

  /** The only argument count the parser accepts. */
  const EXPECTED_ARGUMENT_NUMBER: nat := 4

  const DEVICE_FLAG: string := "-d"
  const TOKEN_FLAG: string := "-t"

  predicate IsFlag(arg: string) {
    arg == DEVICE_FLAG || arg == TOKEN_FLAG
  }

  /** The two static fields the scanner writes. */
  datatype Fields = Fields(deviceId: Option<string>, deviceToken: Option<string>)

  /**
   * How a call ends: `true`, `false`, or an ArrayIndexOutOfBoundsException
   * raised by reading the value after a flag that stands in the last position.
   */
  datatype Outcome = Accepted | Rejected | OutOfBounds

  /** The outcome of one call together with the fields as it leaves them. */
  datatype Parsed = Parsed(outcome: Outcome, fields: Fields)

  /** Where the scanning loop stops: past the end, or at the failing read. */
  datatype Scan = Finished(fields: Fields) | OutOfRange(fields: Fields)

  /** The scanning loop, started at `index` with the fields `f`. */
  function ScanFrom(args: seq<string>, index: nat, f: Fields): (r: Scan)
    requires index <= |args|
    decreases |args| - index
  {
    if index == |args| then Finished(f)
    else if args[index] == DEVICE_FLAG then
      if index + 1 == |args| then OutOfRange(f)
      else ScanFrom(args, index + 2, f.(deviceId := Some(args[index + 1])))
    else if args[index] == TOKEN_FLAG then
      if index + 1 == |args| then OutOfRange(f)
      else ScanFrom(args, index + 2, f.(deviceToken := Some(args[index + 1])))
    else ScanFrom(args, index + 1, f)
  }

  /** One call of the parser on `args`, with the static fields at `f` beforehand. */
  function ParseCommand(args: seq<string>, f: Fields): (r: Parsed)
    // the argument count is checked before any argument is read
    ensures |args| != EXPECTED_ARGUMENT_NUMBER ==> r == Parsed(Rejected, f)
    // accepted exactly when four arguments were scanned to the end and both fields are set
    ensures r.outcome == Accepted <==>
              |args| == EXPECTED_ARGUMENT_NUMBER && r.outcome != OutOfBounds &&
              r.fields.deviceId.Some? && r.fields.deviceToken.Some?
  {
    if |args| != EXPECTED_ARGUMENT_NUMBER then Parsed(Rejected, f)
    else
      match ScanFrom(args, 0, f)
      case OutOfRange(g) => Parsed(OutOfBounds, g)
      case Finished(g) =>
        Parsed(if g.deviceId.None? || g.deviceToken.None? then Rejected else Accepted, g)
  }

  /** `-d X -t Y` sets both fields whatever X and Y are and whatever the fields held. */
  lemma DeviceThenToken(x: string, y: string, f: Fields)
    ensures ParseCommand([DEVICE_FLAG, x, TOKEN_FLAG, y], f)
            == Parsed(Accepted, Fields(Some(x), Some(y)))
  {
    var args := [DEVICE_FLAG, x, TOKEN_FLAG, y];
    assert ScanFrom(args, 2, f.(deviceId := Some(x))) == Finished(Fields(Some(x), Some(y)));
  }

  /** `-t Y -d X` does the same in the other order. */
  lemma TokenThenDevice(x: string, y: string, f: Fields)
    ensures ParseCommand([TOKEN_FLAG, y, DEVICE_FLAG, x], f)
            == Parsed(Accepted, Fields(Some(x), Some(y)))
  {
    var args := [TOKEN_FLAG, y, DEVICE_FLAG, x];
    assert ScanFrom(args, 2, f.(deviceToken := Some(y))) == Finished(Fields(Some(x), Some(y)));
  }

  /** The argument after a flag is taken as its value even when it is a flag itself. */
  lemma FlagTakenAsValue(a: string, b: string)
    requires !IsFlag(a) && !IsFlag(b)
    ensures ParseCommand([DEVICE_FLAG, TOKEN_FLAG, a, b], Fields(None, None))
            == Parsed(Rejected, Fields(Some(TOKEN_FLAG), None))
  {
    var args := [DEVICE_FLAG, TOKEN_FLAG, a, b];
    var g := Fields(Some(TOKEN_FLAG), None);
    assert ScanFrom(args, 3, g) == Finished(g);
    assert ScanFrom(args, 2, g) == Finished(g);
  }

  /** A repeated flag keeps the value of its last occurrence. */
  lemma RepeatedFlagKeepsLast(x: string, y: string, f: Fields)
    ensures ParseCommand([DEVICE_FLAG, x, DEVICE_FLAG, y], f)
            == Parsed(if f.deviceToken.Some? then Accepted else Rejected,
                      f.(deviceId := Some(y)))
  {
    var args := [DEVICE_FLAG, x, DEVICE_FLAG, y];
    assert ScanFrom(args, 2, f.(deviceId := Some(x))) == Finished(f.(deviceId := Some(y)));
  }

  /** `-t x -t y` keeps the second token in the same way. */
  lemma RepeatedTokenKeepsLast(x: string, y: string, f: Fields)
    ensures ParseCommand([TOKEN_FLAG, x, TOKEN_FLAG, y], f)
            == Parsed(if f.deviceId.Some? then Accepted else Rejected,
                      f.(deviceToken := Some(y)))
  {
    var args := [TOKEN_FLAG, x, TOKEN_FLAG, y];
    assert ScanFrom(args, 2, f.(deviceToken := Some(x))) == Finished(f.(deviceToken := Some(y)));
  }

  /** The field a flag names, set to `value`. */
  function Assign(f: Fields, flag: string, value: string): Fields {
    if flag == DEVICE_FLAG then f.(deviceId := Some(value)) else f.(deviceToken := Some(value))
  }

  /**
   * The fields a four-argument line leaves, written out case by case: every
   * flag the loop reaches as a flag assigns the argument after it, in order,
   * so the last such flag for a field decides its value.
   */
  function FourArgumentFields(args: seq<string>, f: Fields): Fields
    requires |args| == 4
  {
    if IsFlag(args[0]) then
      var g := Assign(f, args[0], args[1]);
      if IsFlag(args[2]) then Assign(g, args[2], args[3]) else g
    else if IsFlag(args[1]) then Assign(f, args[1], args[2])
    else if IsFlag(args[2]) then Assign(f, args[2], args[3])
    else f
  }

  /** The scanning loop leaves, for every four-argument line, the fields written out above. */
  lemma FourArgumentClosedForm(args: seq<string>, f: Fields)
    requires |args| == EXPECTED_ARGUMENT_NUMBER
    ensures ParseCommand(args, f).fields == FourArgumentFields(args, f)
  {
    if IsFlag(args[0]) {
      var g := Assign(f, args[0], args[1]);
      assert ScanFrom(args, 0, f) == ScanFrom(args, 2, g);
      if IsFlag(args[2]) {
        assert ScanFrom(args, 2, g) == ScanFrom(args, 4, Assign(g, args[2], args[3]));
      } else {
        assert ScanFrom(args, 2, g) == ScanFrom(args, 3, g);
      }
    } else {
      assert ScanFrom(args, 0, f) == ScanFrom(args, 1, f);
      if IsFlag(args[1]) {
        assert ScanFrom(args, 1, f) == ScanFrom(args, 3, Assign(f, args[1], args[2]));
      } else {
        assert ScanFrom(args, 1, f) == ScanFrom(args, 2, f);
        if IsFlag(args[2]) {
          assert ScanFrom(args, 2, f) == ScanFrom(args, 4, Assign(f, args[2], args[3]));
        } else {
          assert ScanFrom(args, 2, f) == ScanFrom(args, 3, f);
        }
      }
    }
  }

  /**
   * Exactly which four-argument lines make the scanner read past the end: a
   * flag in the last position that is reached as a flag, that is, not consumed
   * as the value of a flag in the third position.
   */
  lemma FinalFlagOverruns(args: seq<string>, f: Fields)
    ensures ParseCommand(args, f).outcome == OutOfBounds <==>
              |args| == EXPECTED_ARGUMENT_NUMBER && IsFlag(args[3]) &&
              (!IsFlag(args[2]) || (!IsFlag(args[0]) && IsFlag(args[1])))
  {
    if |args| == EXPECTED_ARGUMENT_NUMBER {
      var g := f;
      if IsFlag(args[0]) {
        g := if args[0] == DEVICE_FLAG then f.(deviceId := Some(args[1]))
             else f.(deviceToken := Some(args[1]));
        assert ScanFrom(args, 0, f) == ScanFrom(args, 2, g);
        ScanTail(args, 2, g);
      } else {
        assert ScanFrom(args, 0, f) == ScanFrom(args, 1, f);
        if IsFlag(args[1]) {
          g := if args[1] == DEVICE_FLAG then f.(deviceId := Some(args[2]))
               else f.(deviceToken := Some(args[2]));
          assert ScanFrom(args, 1, f) == ScanFrom(args, 3, g);
          ScanTail(args, 3, g);
        } else {
          assert ScanFrom(args, 1, f) == ScanFrom(args, 2, f);
          ScanTail(args, 2, f);
        }
      }
    }
  }

  /** The scan from a position within the last two arguments. */
  lemma ScanTail(args: seq<string>, index: nat, f: Fields)
    requires |args| - 2 <= index <= |args|
    ensures ScanFrom(args, index, f).OutOfRange? <==>
              index < |args| && IsFlag(args[|args| - 1]) &&
              (index == |args| - 1 || !IsFlag(args[index]))
  {
    if index == |args| - 2 && !IsFlag(args[index]) {
      assert ScanFrom(args, index, f) == ScanFrom(args, index + 1, f);
    }
  }

  /**
   * The device id a scan leaves is either the one it started with or the
   * argument right after some `-d`.
   */
  lemma {:induction false} DeviceIdFromFlag(args: seq<string>, index: nat, f: Fields)
    requires index <= |args|
    ensures var g := ScanFrom(args, index, f).fields;
            g.deviceId == f.deviceId ||
            exists i :: index <= i < |args| - 1 && args[i] == DEVICE_FLAG && g.deviceId == Some(args[i + 1])
    decreases |args| - index
  {
    if index < |args| {
      if args[index] == DEVICE_FLAG {
        if index + 1 < |args| {
          DeviceIdFromFlag(args, index + 2, f.(deviceId := Some(args[index + 1])));
        }
      } else if args[index] == TOKEN_FLAG {
        if index + 1 < |args| {
          DeviceIdFromFlag(args, index + 2, f.(deviceToken := Some(args[index + 1])));
        }
      } else {
        DeviceIdFromFlag(args, index + 1, f);
      }
    }
  }

  /**
   * The device token a scan leaves is either the one it started with or the
   * argument right after some `-t`.
   */
  lemma {:induction false} DeviceTokenFromFlag(args: seq<string>, index: nat, f: Fields)
    requires index <= |args|
    ensures var g := ScanFrom(args, index, f).fields;
            g.deviceToken == f.deviceToken ||
            exists i :: index <= i < |args| - 1 && args[i] == TOKEN_FLAG && g.deviceToken == Some(args[i + 1])
    decreases |args| - index
  {
    if index < |args| {
      if args[index] == DEVICE_FLAG {
        if index + 1 < |args| {
          DeviceTokenFromFlag(args, index + 2, f.(deviceId := Some(args[index + 1])));
        }
      } else if args[index] == TOKEN_FLAG {
        if index + 1 < |args| {
          DeviceTokenFromFlag(args, index + 2, f.(deviceToken := Some(args[index + 1])));
        }
      } else {
        DeviceTokenFromFlag(args, index + 1, f);
      }
    }
  }

  /**
   * The program's two static fields, `deviceId` and `deviceToken`, with the
   * scanner that writes them.
   */
  class Credentials {
    var deviceId: Option<string>
    var deviceToken: Option<string>

    function Current(): Fields
      reads this
    {
      Fields(deviceId, deviceToken)
    }

    /** Both fields start out null. */
    constructor ()
      ensures deviceId == None && deviceToken == None
    {
      deviceId, deviceToken := None, None;
    }

    /**
     * succeedParseCommand: rejects any count other than four before reading an
     * argument, then runs the scanning loop over the static fields.
     */
    method SucceedParseCommand(args: seq<string>) returns (outcome: Outcome)
      modifies this
      ensures Parsed(outcome, Current()) == ParseCommand(args, old(Current()))
    {
      if |args| != EXPECTED_ARGUMENT_NUMBER {
        return Rejected;
      }
      var index := 0;
      while index < |args|
        invariant index <= |args|
        invariant ScanFrom(args, index, Current()) == ScanFrom(args, 0, old(Current()))
      {
        var arg := args[index];
        if arg == DEVICE_FLAG {
          index := index + 1;
          if index == |args| {
            return OutOfBounds;
          }
          deviceId := Some(args[index]);
        } else if arg == TOKEN_FLAG {
          index := index + 1;
          if index == |args| {
            return OutOfBounds;
          }
          deviceToken := Some(args[index]);
        }
        index := index + 1;
      }
      if deviceToken.None? || deviceId.None? {
        return Rejected;
      }
      return Accepted;
    }
  }
}

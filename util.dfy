/**
 * Shared vocabulary of the model: the failure datatypes that stand for the
 * exceptions and `sys.exit` calls of the scripts, and the Python string
 * operations the scripts rely on (`in`, `str.replace`, `str.split`, `int()`,
 * `'{}'.format(n)`), written out over `seq<char>`.
 */
module Util {

  datatype Option<T> = None | Some(value: T)

  /** The ways a modelled Python call can end other than by returning. */
  datatype Error =
    | KeyError(key: string)
    | IndexError
    | ValueError
    | TypeError
    | AttributeError
    | StopIteration
    | FileNotFound(path: string)
    | FileExists(path: string)
    | NotADirectory(path: string)
    | Exit(code: int)
    | CommandFailed(code: int)   // subprocess.CalledProcessError from check_call
    | ImportError(name: string)  // `from m import name` where m binds no such name

  datatype Result<T> = Ok(value: T) | Fail(error: Error) {
    predicate IsFailure() { Fail? }
    function PropagateFailure<U>(): Result<U>
      requires Fail?
    {
      Fail(error)
    }
    function Extract(): T
      requires Ok?
    {
      value
    }
  }

  // ---------------------------------------------------------------------------
  // Substrings: Python's `p in s` and `s.find(p)`

  /** `p` occurs in `s` at position `i`. */
  predicate OccursAt(p: string, s: string, i: nat)
  {
    i + |p| <= |s| && s[i..i + |p|] == p
  }

  /** The first position at or after `from` where `p` occurs in `s`. */
  function IndexFrom(p: string, s: string, from: nat): (r: Option<nat>)
    decreases |s| - from
    ensures r.Some? ==> from <= r.value && OccursAt(p, s, r.value)
    ensures r.Some? ==> forall j :: from <= j < r.value ==> !OccursAt(p, s, j)
    ensures r.None? ==> forall j :: from <= j ==> !OccursAt(p, s, j)
  {
    if from + |p| > |s| then None
    else if s[from..from + |p|] == p then Some(from)
    else IndexFrom(p, s, from + 1)
  }

  /** Python's `p in s`. */
  predicate Contains(s: string, p: string)
  {
    IndexFrom(p, s, 0).Some?
  }

  lemma ContainsAt(s: string, p: string, i: nat)
    requires OccursAt(p, s, i)
    ensures Contains(s, p)
  {
  }

  lemma ContainsWitness(s: string, p: string) returns (i: nat)
    requires Contains(s, p)
    ensures OccursAt(p, s, i)
  {
    i := IndexFrom(p, s, 0).value;
  }

  lemma ContainsAppend(a: string, b: string, p: string)
    requires Contains(a, p) || Contains(b, p)
    ensures Contains(a + b, p)
  {
    if Contains(a, p) {
      var i := ContainsWitness(a, p);
      assert (a + b)[i..i + |p|] == a[i..i + |p|];
      ContainsAt(a + b, p, i);
    } else {
      var i := ContainsWitness(b, p);
      assert (a + b)[|a| + i..|a| + i + |p|] == b[i..i + |p|];
      ContainsAt(a + b, p, |a| + i);
    }
  }

  /** Python's `s.startswith(p)`. */
  predicate StartsWith(s: string, p: string)
  {
    |p| <= |s| && s[..|p|] == p
  }

  predicate HasChar(s: string, c: char)
  {
    exists i :: 0 <= i < |s| && s[i] == c
  }

  // ---------------------------------------------------------------------------
  // str.replace

  /**
   * Python's `s.replace(pat, rep)`: every non-overlapping occurrence of `pat`,
   * scanning from the left, is replaced; an empty `pat` inserts `rep` before
   * every character and at the end.
   */
  function ReplaceAll(s: string, pat: string, rep: string): string
    decreases |s|
  {
    if pat == [] then
      if s == [] then rep else rep + [s[0]] + ReplaceAll(s[1..], pat, rep)
    else if |s| < |pat| then s
    else if s[..|pat|] == pat then rep + ReplaceAll(s[|pat|..], pat, rep)
    else [s[0]] + ReplaceAll(s[1..], pat, rep)
  }

  /** Replacing one character by another changes nothing else. */
  lemma {:induction false} ReplaceCharAt(s: string, a: char, b: char)
    ensures |ReplaceAll(s, [a], [b])| == |s|
    ensures forall i :: 0 <= i < |s| ==>
              ReplaceAll(s, [a], [b])[i] == (if s[i] == a then b else s[i])
  {
    if s != [] {
      ReplaceCharAt(s[1..], a, b);
      var t := ReplaceAll(s[1..], [a], [b]);
      if s[..1] == [a] {
        assert ReplaceAll(s, [a], [b]) == [b] + t;
      } else {
        assert ReplaceAll(s, [a], [b]) == [s[0]] + t;
      }
    }
  }

  /** `s.replace('-', '_')`: the form application names take in paths. */
  function Underscored(s: string): (r: string)
    ensures |r| == |s|
    ensures forall i :: 0 <= i < |s| ==> r[i] == (if s[i] == '-' then '_' else s[i])
    ensures !HasChar(r, '-')
  {
    ReplaceCharAt(s, '-', '_');
    ReplaceAll(s, "-", "_")
  }

  // ---------------------------------------------------------------------------
  // str.split with a one-character separator, and str.join

  /** Python's `s.split(c)`. */
  function Split(s: string, c: char): (r: seq<string>)
    decreases |s|
    ensures |r| >= 1
    ensures forall k :: 0 <= k < |r| ==> !HasChar(r[k], c)
  {
    if s == [] then [[]]
    else if s[0] == c then [[]] + Split(s[1..], c)
    else
      var rest := Split(s[1..], c);
      [[s[0]] + rest[0]] + rest[1..]
  }

  /** `sep.join(parts)`. */
  function Join(parts: seq<string>, sep: string): string
  {
    if parts == [] then []
    else if |parts| == 1 then parts[0]
    else parts[0] + sep + Join(parts[1..], sep)
  }

  /** Splitting and re-joining on the same character gives the text back. */
  lemma {:induction false} JoinSplit(s: string, c: char)
    ensures Join(Split(s, c), [c]) == s
  {
    if s != [] {
      JoinSplit(s[1..], c);
      var rest := Split(s[1..], c);
      if s[0] == c {
        assert Split(s, c) == [[]] + rest;
      } else {
        var r := Split(s, c);
        assert r == [[s[0]] + rest[0]] + rest[1..];
        if |rest| == 1 {
          assert Join(r, [c]) == [s[0]] + rest[0];
        } else {
          assert r[1..] == rest[1..];
          assert Join(r, [c]) == [s[0]] + rest[0] + [c] + Join(rest[1..], [c]);
        }
      }
    }
  }

  lemma NoCharTail(s: string, c: char)
    requires s != [] && !HasChar(s, c)
    ensures s[0] != c && !HasChar(s[1..], c)
  {
    forall i | 0 <= i < |s[1..]| ensures s[1..][i] != c {
      assert s[1..][i] == s[i + 1];
    }
  }

  lemma NoCharConcat(a: string, b: string, c: char)
    requires !HasChar(a, c) && !HasChar(b, c)
    ensures !HasChar(a + b, c)
  {
    forall i | 0 <= i < |a + b| ensures (a + b)[i] != c {
      if i < |a| {
        assert (a + b)[i] == a[i];
      } else {
        assert (a + b)[i] == b[i - |a|];
      }
    }
  }

  lemma NoCharSlice(s: string, i: nat, j: nat, c: char)
    requires i <= j <= |s| && !HasChar(s, c)
    ensures !HasChar(s[i..j], c)
  {
    forall k | 0 <= k < j - i ensures s[i..j][k] != c {
      assert s[i..j][k] == s[i + k];
    }
  }

  /** A text without the separator splits into itself. */
  lemma {:induction false} SplitNoSep(s: string, c: char)
    requires !HasChar(s, c)
    ensures Split(s, c) == [s]
  {
    if s != [] {
      NoCharTail(s, c);
      SplitNoSep(s[1..], c);
      var rest := Split(s[1..], c);
      assert rest == [s[1..]];
      assert Split(s, c) == [[s[0]] + rest[0]] + rest[1..];
      assert [s[0]] + s[1..] == s;
    }
  }

  /** Splitting `a + [c] + b` where `b` holds no separator: `b` is the last piece. */
  lemma {:induction false} SplitLast(a: string, c: char, b: string)
    requires !HasChar(b, c)
    ensures Split(a + [c] + b, c)[|Split(a + [c] + b, c)| - 1] == b
    ensures |Split(a + [c] + b, c)| >= 2
  {
    if a == [] {
      assert a + [c] + b == [c] + b;
      assert ([c] + b)[1..] == b;
      SplitNoSep(b, c);
    } else {
      assert (a + [c] + b)[1..] == a[1..] + [c] + b;
      SplitLast(a[1..], c, b);
    }
  }

  /** Splitting `a + [c] + b` where `a` holds no separator: `a` is the first piece and `b` the rest. */
  lemma {:induction false} SplitFirst(a: string, c: char, b: string)
    requires !HasChar(a, c)
    ensures Split(a + [c] + b, c) == [a] + Split(b, c)
  {
    if a == [] {
      assert a + [c] + b == [c] + b;
      assert ([c] + b)[1..] == b;
    } else {
      assert (a + [c] + b)[1..] == a[1..] + [c] + b;
      NoCharTail(a, c);
      SplitFirst(a[1..], c, b);
      assert a[0] != c;
      var rest := Split((a + [c] + b)[1..], c);
      assert rest == [a[1..]] + Split(b, c);
      assert Split(a + [c] + b, c) == [[a[0]] + rest[0]] + rest[1..];
      assert [a[0]] + a[1..] == a;
    }
  }

  /** Joining pieces free of the separator and splitting again gives the pieces back. */
  lemma {:induction false} SplitJoin(parts: seq<string>, c: char)
    requires |parts| >= 1 && forall k :: 0 <= k < |parts| ==> !HasChar(parts[k], c)
    ensures Split(Join(parts, [c]), c) == parts
  {
    if |parts| == 1 {
      SplitNoSep(parts[0], c);
    } else {
      SplitJoin(parts[1..], c);
      assert Join(parts, [c]) == parts[0] + [c] + Join(parts[1..], [c]);
      SplitFirst(parts[0], c, Join(parts[1..], [c]));
      assert parts == [parts[0]] + parts[1..];
    }
  }

  // ---------------------------------------------------------------------------
  // Decimal numbers: `'{}'.format(n)` and `int(s)`

  predicate IsDigit(c: char) { '0' <= c <= '9' }

  predicate AllDigits(s: string)
  {
    forall i :: 0 <= i < |s| ==> IsDigit(s[i])
  }

  function DigitChar(d: nat): (c: char)
    requires d < 10
    ensures IsDigit(c)
  {
    ('0' as int + d) as char
  }

  /** `'{}'.format(n)` for a natural number. */
  function NatToString(n: nat): (r: string)
    ensures |r| >= 1 && AllDigits(r)
  {
    if n < 10 then [DigitChar(n)] else NatToString(n / 10) + [DigitChar(n % 10)]
  }

  /** `'{}'.format(i)` for any integer. */
  function IntToString(i: int): string
  {
    if i < 0 then "-" + NatToString(-i) else NatToString(i)
  }

  /** The value of a string of decimal digits. */
  function DigitsValue(s: string): nat
    requires AllDigits(s)
  {
    if s == [] then 0 else 10 * DigitsValue(s[..|s| - 1]) + (s[|s| - 1] as int - '0' as int)
  }

  /**
   * Python's `int(s)` for a base-10 literal: an optional sign followed by at
   * least one ASCII digit; anything else is a ValueError.
   */
  function ParseInt(s: string): Result<int>
  {
    if |s| >= 2 && s[0] == '-' && AllDigits(s[1..]) then Ok(-(DigitsValue(s[1..]) as int))
    else if |s| >= 2 && s[0] == '+' && AllDigits(s[1..]) then Ok(DigitsValue(s[1..]))
    else if |s| >= 1 && AllDigits(s) then Ok(DigitsValue(s))
    else Fail(ValueError)
  }

  /** Reading back a printed number gives the number. */
  lemma {:induction false} DigitsValueOfNat(n: nat)
    ensures DigitsValue(NatToString(n)) == n
  {
    if n >= 10 {
      DigitsValueOfNat(n / 10);
      var r := NatToString(n);
      assert r[..|r| - 1] == NatToString(n / 10);
    }
  }

  lemma ParseIntOfNat(n: nat)
    ensures ParseInt(NatToString(n)) == Ok(n)
  {
    DigitsValueOfNat(n);
  }

  /** Printing is injective, so distinct numbers give distinct strings. */
  lemma NatToStringInjective(m: nat, n: nat)
    requires NatToString(m) == NatToString(n)
    ensures m == n
  {
    DigitsValueOfNat(m);
    DigitsValueOfNat(n);
  }

  // ---------------------------------------------------------------------------
  // Argument vectors

  /** `flag v` for every value, in order: what a loop of `cmd.extend([flag, v])` appends. */
  function Pairs(flag: string, vals: seq<string>): (r: seq<string>)
    ensures |r| == 2 * |vals|
  {
    if vals == [] then [] else [flag, vals[0]] + Pairs(flag, vals[1..])
  }

  lemma {:induction false} PairsAt(flag: string, vals: seq<string>)
    ensures forall i :: 0 <= i < |vals| ==> Pairs(flag, vals)[2 * i] == flag && Pairs(flag, vals)[2 * i + 1] == vals[i]
  {
    if vals != [] {
      PairsAt(flag, vals[1..]);
      var v := Pairs(flag, vals);
      assert v == [flag, vals[0]] + Pairs(flag, vals[1..]);
      forall i | 1 <= i < |vals| ensures v[2 * i] == flag && v[2 * i + 1] == vals[i] {
        assert v[2 * i] == Pairs(flag, vals[1..])[2 * (i - 1)];
        assert v[2 * i + 1] == Pairs(flag, vals[1..])[2 * (i - 1) + 1];
      }
    }
  }

  lemma {:induction false} PairsSnoc(flag: string, vals: seq<string>, v: string)
    ensures Pairs(flag, vals + [v]) == Pairs(flag, vals) + [flag, v]
  {
    if vals == [] {
      assert vals + [v] == [v];
    } else {
      assert (vals + [v])[1..] == vals[1..] + [v];
      PairsSnoc(flag, vals[1..], v);
    }
  }

  /**
   * The argument of every `flag` in an argument list, read the way a
   * command-line parser reads it: `flag` takes the next token, whatever it is.
   */
  function FlagArgs(argv: seq<string>, flag: string): seq<string>
  {
    if |argv| < 2 then []
    else if argv[0] == flag then [argv[1]] + FlagArgs(argv[2..], flag)
    else FlagArgs(argv[1..], flag)
  }

  /** Reading the flag's arguments back from the pairs gives the values, in order. */
  lemma {:induction false} FlagArgsOfPairs(flag: string, vals: seq<string>)
    ensures FlagArgs(Pairs(flag, vals), flag) == vals
  {
    if vals != [] {
      FlagArgsOfPairs(flag, vals[1..]);
      assert Pairs(flag, vals)[2..] == Pairs(flag, vals[1..]);
    }
  }

  /** Flag pairs followed by more tokens: both parts are read. */
  lemma {:induction false} FlagArgsAppend(a: seq<string>, b: seq<string>, flag: string)
    requires |a| % 2 == 0
    requires forall i :: 0 <= i < |a| && i % 2 == 0 ==> a[i] == flag
    ensures FlagArgs(a + b, flag) == FlagArgs(a, flag) + FlagArgs(b, flag)
    decreases |a|
  {
    if a != [] {
      assert a[0] == flag;
      assert (a + b)[2..] == a[2..] + b;
      forall i | 0 <= i < |a[2..]| && i % 2 == 0 ensures a[2..][i] == flag {
        assert a[2..][i] == a[i + 2];
      }
      FlagArgsAppend(a[2..], b, flag);
    } else {
      assert a + b == b;
    }
  }
}

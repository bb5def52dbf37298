/** SQL commands as the bytes the driver posts, and the routing test that
    sends a command to the query endpoint or to the exec endpoint
    (pycovenantsql/connections.py:214-217). */
module Commands {

  type Byte = b: int | 0 <= b < 0x100
  type Bytes = seq<Byte>

  /** The literal commands the connection issues itself, as ASCII text. */
  const Probe: string := "select 1;"
  const CommitCommand: string := "COMMIT"
  const RollbackCommand: string := "ROLLBACK"

  /** The prefix a command must start with to be posted to the query endpoint. */
  const SelectKeyword: Bytes := [0x73, 0x65, 0x6c, 0x65, 0x63, 0x74]  // "select"

  predicate IsAscii(s: string)
  {
    forall i :: 0 <= i < |s| ==> s[i] as int < 0x80
  }

  /** The UTF-8 encoding of an ASCII string: one byte per character. */
  function Encode(s: string): (r: Bytes)
    requires IsAscii(s)
    ensures |r| == |s| && forall i :: 0 <= i < |s| ==> r[i] == s[i] as int
  {
    seq(|s|, i requires 0 <= i < |s| => s[i] as int)
  }

  /** Python's `bytes.lower()` on one byte: only ASCII capitals change. */
  function LowerByte(b: Byte): Byte
  {
    if 'A' as int <= b <= 'Z' as int then b + 0x20 else b
  }

  /** Python's `bytes.lower()`. */
  function Lower(s: Bytes): (r: Bytes)
    ensures |r| == |s|
  {
    seq(|s|, i requires 0 <= i < |s| => LowerByte(s[i]))
  }

  /** The bytes `bytes.lstrip()` removes: space, tab, newline, carriage
      return, vertical tab and form feed. */
  predicate IsSpace(b: Byte)
  {
    b == 0x20 || b == 0x09 || b == 0x0a || b == 0x0d || b == 0x0b || b == 0x0c
  }

  /** Python's `bytes.lstrip()`. */
  function LStrip(s: Bytes): (r: Bytes)
    ensures |r| <= |s|
  {
    if s != [] && IsSpace(s[0]) then LStrip(s[1..]) else s
  }

  /** `lstrip()` leaves the suffix of `s` that starts at its first
      non-whitespace byte: what it drops is all whitespace, and what it keeps
      is empty or starts with a byte that is not. */
  lemma {:induction false} LStripDropsLeadingSpace(s: Bytes)
    ensures var r := LStrip(s);
            && |r| <= |s| && r == s[|s| - |r|..]
            && (forall i :: 0 <= i < |s| - |r| ==> IsSpace(s[i]))
            && (r == [] || !IsSpace(r[0]))
  {
    if s != [] && IsSpace(s[0]) {
      LStripDropsLeadingSpace(s[1..]);
      var r := LStrip(s);
      assert r == LStrip(s[1..]);
      forall i | 1 <= i < |s| - |r|
        ensures IsSpace(s[i])
      {
        assert s[i] == s[1..][i - 1];
      }
    }
  }

  predicate StartsWith(s: Bytes, prefix: Bytes)
  {
    |prefix| <= |s| && s[..|prefix|] == prefix
  }

  /** The routing test `sql.lower().lstrip().startswith(b'select')`. */
  predicate IsSelect(sql: Bytes)
    ensures IsSelect(sql) ==> |sql| >= |SelectKeyword|
  {
    StartsWith(LStrip(Lower(sql)), SelectKeyword)
  }

  /** Case-insensitive equality of a slice of bytes with a lower-case word. */
  predicate MatchesIgnoringCase(s: Bytes, word: Bytes)
  {
    |s| == |word| && forall j :: 0 <= j < |word| ==> LowerByte(s[j]) == word[j]
  }

  /** The bytes before `k` are all whitespace and the six from `k` on spell
      `select` in any mix of cases. */
  predicate SelectAt(sql: Bytes, k: int)
  {
    && 0 <= k <= |sql| - 6
    && (forall i :: 0 <= i < k ==> IsSpace(sql[i]))
    && MatchesIgnoringCase(sql[k..k + 6], SelectKeyword)
  }

  /** An independent statement of the routing rule: a command goes to the
      query endpoint exactly when, after some run of whitespace, its next six
      bytes spell `select` in any mix of cases. */
  lemma IsSelectCharacterized(sql: Bytes)
    ensures IsSelect(sql) <==> exists k :: SelectAt(sql, k)
  {
    var low := Lower(sql);
    var stripped := LStrip(low);
    LStripDropsLeadingSpace(low);
    var k := |low| - |stripped|;
    assert stripped == low[k..];
    if IsSelect(sql) {
      assert k + 6 <= |sql|;
      forall j | 0 <= j < 6
        ensures LowerByte(sql[k..k + 6][j]) == SelectKeyword[j]
      {
        assert stripped[..6][j] == SelectKeyword[j];
        assert stripped[j] == low[k + j];
      }
      forall i | 0 <= i < k
        ensures IsSpace(sql[i])
      {
        assert IsSpace(low[i]);
        SpaceUnchangedByLower(sql[i]);
      }
    }
    if exists k' :: SelectAt(sql, k') {
      var k' :| SelectAt(sql, k');
      // the stripped text starts exactly at k': everything before it is
      // whitespace and its first byte lowers to 's'
      forall i | 0 <= i < k'
        ensures IsSpace(low[i])
      {
        SpaceUnchangedByLower(sql[i]);
      }
      assert LowerByte(sql[k'..k' + 6][0]) == SelectKeyword[0];
      assert !IsSpace(low[k']);
      assert stripped != [] ==> stripped[0] == low[k];
      assert k == k';
      forall j | 0 <= j < 6
        ensures stripped[j] == SelectKeyword[j]
      {
        assert LowerByte(sql[k'..k' + 6][j]) == SelectKeyword[j];
      }
      assert stripped[..6] == SelectKeyword;
    }
    if IsSelect(sql) {
      assert SelectAt(sql, k);
    }
  }

  /** Lowering never turns a non-space byte into whitespace or back. */
  lemma SpaceUnchangedByLower(b: Byte)
    ensures IsSpace(LowerByte(b)) <==> IsSpace(b)
  {
  }

  /** The probe issued by `connect` goes to the query endpoint. */
  lemma ProbeIsSelect()
    ensures IsAscii(Probe) && IsSelect(Encode(Probe))
  {
    assert LStrip(Lower(Encode(Probe))) == Lower(Encode(Probe));
    assert Lower(Encode(Probe))[..6] == SelectKeyword;
  }

  /** The command issued by `commit` goes to the exec endpoint. */
  lemma CommitIsNotSelect()
    ensures IsAscii(CommitCommand) && !IsSelect(Encode(CommitCommand))
  {
    assert LStrip(Lower(Encode(CommitCommand))) == Lower(Encode(CommitCommand));
    assert Lower(Encode(CommitCommand))[0] != SelectKeyword[0];
  }

  /** The command issued by `rollback` goes to the exec endpoint. */
  lemma RollbackIsNotSelect()
    ensures IsAscii(RollbackCommand) && !IsSelect(Encode(RollbackCommand))
  {
    assert LStrip(Lower(Encode(RollbackCommand))) == Lower(Encode(RollbackCommand));
    assert Lower(Encode(RollbackCommand))[0] != SelectKeyword[0];
  }

  /** Leading whitespace and capitals do not hide a select. */
  lemma PaddedUpperCaseSelect()
    ensures IsAscii("  SELECT 1") && IsSelect(Encode("  SELECT 1"))
  {
    var sql := Encode("  SELECT 1");
    assert MatchesIgnoringCase(sql[2..8], SelectKeyword);
    assert SelectAt(sql, 2);
    IsSelectCharacterized(sql);
  }

  /** A statement that is not a select goes to the exec endpoint. */
  lemma InsertIsNotSelect()
    ensures IsAscii("insert into t values (1)") && !IsSelect(Encode("insert into t values (1)"))
  {
    var sql := Encode("insert into t values (1)");
    assert LStrip(Lower(sql)) == Lower(sql);
    assert Lower(sql)[0] != SelectKeyword[0];
  }
}

/** The audit log file written by `SessionManager.log_request` and the counts
    the `stats` command reads back from the log and the session directory. */
module Audit {
  import opened Strings

  /** The two statuses the handlers write. */
  datatype Status = Success | Cancelled

  function StatusText(s: Status): (t: string)
    ensures NoLineBreak(t) && ',' !in t && |t| > 0
  {
    match s
    case Success => "SUCCESS"
    case Cancelled => "CANCELLED"
  }

  /** One request record: the clock reading, the Telegram user id, the phone
      and the outcome. */
  datatype Record = Record(time: nat, userId: int, phone: string, status: Status)

  lemma NoLineBreakConcat(a: string, b: string)
    ensures NoLineBreak(a + b) <==> NoLineBreak(a) && NoLineBreak(b)
  {
    if NoLineBreak(a) && NoLineBreak(b) {
      forall i | 0 <= i < |a + b| ensures !IsLineBreak((a + b)[i]) {
        if i >= |a| { assert (a + b)[i] == b[i - |a|]; }
      }
    }
    if NoLineBreak(a + b) {
      forall i | 0 <= i < |a| ensures !IsLineBreak(a[i]) {
        assert a[i] == (a + b)[i];
      }
      forall i | 0 <= i < |b| ensures !IsLineBreak(b[i]) {
        assert b[i] == (a + b)[|a| + i];
      }
    }
  }

  /** The text of a record without its line terminator: the four fields
      joined by commas. */
  function LineBody(r: Record): (body: string) {
    NatText(r.time) + "," + IntText(r.userId) + "," + r.phone + "," + StatusText(r.status)
  }

  lemma LineBodyNoBreak(r: Record)
    ensures NoLineBreak(r.phone) ==> NoLineBreak(LineBody(r))
  {
    var a, b, c, d := NatText(r.time), IntText(r.userId), r.phone, StatusText(r.status);
    NoLineBreakConcat(a, ",");
    NoLineBreakConcat(a + ",", b);
    NoLineBreakConcat(a + "," + b, ",");
    NoLineBreakConcat(a + "," + b + ",", c);
    NoLineBreakConcat(a + "," + b + "," + c, ",");
    NoLineBreakConcat(a + "," + b + "," + c + ",", d);
  }

  /** The line `log_request` writes (lonamibots.py:36): the body and one '\n'. */
  function Line(r: Record): (line: string) {
    LineBody(r) + "\n"
  }

  /** The comma-separated fields of a line body, as `str.split(',')` gives them. */
  function Fields(s: string): (fs: seq<string>)
    ensures |fs| > 0
  {
    if s == [] then [""]
    else if s[0] == ',' then [""] + Fields(s[1..])
    else var rest := Fields(s[1..]); [[s[0]] + rest[0]] + rest[1..]
  }

  lemma {:induction false} FieldsNoComma(a: string)
    requires ',' !in a
    ensures Fields(a) == [a]
  {
    if a != [] {
      FieldsNoComma(a[1..]);
      assert [a[0]] + a[1..] == a;
    }
  }

  lemma {:induction false} FieldsJoin(a: string, b: string)
    requires ',' !in a
    ensures Fields(a + "," + b) == [a] + Fields(b)
  {
    if a == [] {
      assert a + "," + b == [','] + b;
      assert (a + "," + b)[1..] == b;
    } else {
      assert (a + "," + b)[1..] == a[1..] + "," + b;
      FieldsJoin(a[1..], b);
      assert [a[0]] + a[1..] == a;
    }
  }

  lemma NoCommaInNumbers(n: nat, u: int)
    ensures ',' !in NatText(n) && ',' !in IntText(u)
  {
    NoCommaInNat(n);
    NoCommaInNat(if u < 0 then -u else u);
  }

  lemma NoCommaInNat(n: nat)
    ensures ',' !in NatText(n)
  {
  }

  /** Four comma-free fields joined by commas split back into those fields. */
  lemma FieldsOfFour(a: string, b: string, c: string, d: string)
    requires ',' !in a && ',' !in b && ',' !in c && ',' !in d
    ensures Fields(a + "," + b + "," + c + "," + d) == [a, b, c, d]
  {
    var cd := c + "," + d;
    var bcd := b + "," + cd;
    FieldsNoComma(d);
    FieldsJoin(c, d);
    assert Fields(cd) == [c, d];
    FieldsJoin(b, cd);
    assert Fields(bcd) == [b, c, d];
    FieldsJoin(a, bcd);
    assert Fields(a + "," + bcd) == [a, b, c, d];
    SeqAssoc4(a, b, c, d);
  }

  lemma SeqAssoc4(a: string, b: string, c: string, d: string)
    ensures a + "," + b + "," + c + "," + d == a + "," + (b + "," + (c + "," + d))
  {
  }

  /** Splitting a line body on commas gives back the four field texts it was
      written from, provided the phone holds no comma (an accepted phone
      never does: `Strings.AcceptedPhoneHasNoComma`). */
  lemma LineFields(r: Record)
    requires ',' !in r.phone
    ensures Fields(LineBody(r)) == [NatText(r.time), IntText(r.userId), r.phone, StatusText(r.status)]
  {
    NoCommaInNumbers(r.time, r.userId);
    FieldsOfFour(NatText(r.time), IntText(r.userId), r.phone, StatusText(r.status));
  }

  /** The whole content of a log holding `rs`, oldest record first. */
  function Text(rs: seq<Record>): (text: string) {
    if rs == [] then "" else Line(rs[0]) + Text(rs[1..])
  }

  /** Opening the file in append mode adds the new line after the old text. */
  lemma {:induction false} TextAppend(rs: seq<Record>, r: Record)
    ensures Text(rs + [r]) == Text(rs) + Line(r)
  {
    if rs == [] {
      assert [r][1..] == [];
    } else {
      assert (rs + [r])[1..] == rs[1..] + [r];
      TextAppend(rs[1..], r);
    }
  }

  /** What is left after reading one line of `s` in universal-newline mode:
      a line ends at '\n', at '\r', at "\r\n", or at the end of the text. */
  function RestAfterLine(s: string): (rest: string)
    requires s != []
    ensures |rest| < |s|
  {
    if s[0] == '\n' then s[1..]
    else if s[0] == '\r' then (if |s| > 1 && s[1] == '\n' then s[2..] else s[1..])
    else if |s| == 1 then []
    else RestAfterLine(s[1..])
  }

  /** `len(f.readlines())` on a text file holding `s`. */
  function CountLines(s: string): (n: nat)
    decreases |s|
  {
    if s == [] then 0 else 1 + CountLines(RestAfterLine(s))
  }

  lemma {:induction false} RestAfterLineOf(body: string, rest: string)
    requires NoLineBreak(body)
    ensures RestAfterLine(body + "\n" + rest) == rest
  {
    var s := body + "\n" + rest;
    if body == [] {
      assert s == ['\n'] + rest;
    } else {
      assert !IsLineBreak(body[0]) && s[0] == body[0];
      assert s[1..] == body[1..] + "\n" + rest;
      RestAfterLineOf(body[1..], rest);
    }
  }

  /** Every record is one line of the file, so reading the file back gives as
      many lines as there are records. */
  lemma {:induction false} CountLinesOfText(rs: seq<Record>)
    requires AllOneLine(rs)
    ensures CountLines(Text(rs)) == |rs|
  {
    if rs != [] {
      var r := rs[0];
      LineBodyNoBreak(r);
      assert Line(r) == LineBody(r) + "\n";
      RestAfterLineOf(LineBody(r), Text(rs[1..]));
      CountLinesOfText(rs[1..]);
    }
  }

  /** Every record's phone is free of line breaks. */
  ghost predicate AllOneLine(rs: seq<Record>) {
    forall i :: 0 <= i < |rs| ==> NoLineBreak(rs[i].phone)
  }

  lemma CleanAppend(rs: seq<Record>, r: Record)
    ensures AllOneLine(rs + [r]) <==> AllOneLine(rs) && NoLineBreak(r.phone)
  {
    assert forall i :: 0 <= i < |rs| ==> (rs + [r])[i] == rs[i];
    assert (rs + [r])[|rs|] == r;
  }

  /** The log file LOG_FILE: whether it exists, and the records written to
      it, oldest first. Its text is `Content()`. */
  class LogFile {
    var present: bool
    var records: seq<Record>

    ghost predicate Valid()
      reads this
    {
      !present ==> records == []
    }

    /** Every record fits on one line. */
    ghost predicate Clean()
      reads this
    {
      AllOneLine(records)
    }

    /** The text of the file. */
    function Content(): (text: string)
      reads this
    {
      Text(records)
    }

    /** No log file yet. */
    constructor ()
      ensures Valid() && Clean() && !present && records == []
    {
      present, records := false, [];
    }

    /** `SessionManager.log_request` (lonamibots.py:34-36): append one line,
        creating the file when it is missing; what was there stays. */
    method LogRequest(time: nat, userId: int, phone: string, status: Status)
      requires Valid()
      modifies this
      ensures Valid() && present
      ensures records == old(records) + [Record(time, userId, phone, status)]
      ensures Content() == old(Content()) + Line(Record(time, userId, phone, status))
      ensures old(Clean()) && NoLineBreak(phone) ==> Clean()
    {
      var r := Record(time, userId, phone, status);
      TextAppend(records, r);
      CleanAppend(records, r);
      records := records + [r];
      present := true;
    }

    /** The log count of `stats` (lonamibots.py:174-178): the number of lines
        of the file, 0 when there is none; on a clean log that is the number
        of records. */
    method CountRecords() returns (n: nat)
      requires Valid()
      ensures n == (if present then CountLines(Content()) else 0)
      ensures Clean() ==> n == |records|
    {
      if present {
        n := CountLines(Text(records));
        if Clean() {
          CountLinesOfText(records);
        }
      } else {
        n := 0;
      }
    }
  }

  /** The session count of `stats` (lonamibots.py:171): the names in the
      directory listing that end in ".session". */
  function CountSessionFiles(listing: seq<string>): (n: nat)
    ensures n <= |listing|
    ensures n == |listing| <==> forall i :: 0 <= i < |listing| ==> EndsWith(listing[i], SessionExtension)
    ensures n == 0 <==> forall i :: 0 <= i < |listing| ==> !EndsWith(listing[i], SessionExtension)
  {
    if listing == [] then 0
    else (if EndsWith(listing[0], SessionExtension) then 1 else 0) + CountSessionFiles(listing[1..])
  }

  /** A listing names each file once, so the count is the number of distinct
      session files in the directory. */
  lemma {:induction false} CountSessionFilesIsSetSize(listing: seq<string>)
    requires forall i, j :: 0 <= i < j < |listing| ==> listing[i] != listing[j]
    ensures CountSessionFiles(listing) == |set f | f in listing && EndsWith(f, SessionExtension)|
  {
    if listing != [] {
      var x, rest := listing[0], listing[1..];
      forall i, j | 0 <= i < j < |rest| ensures rest[i] != rest[j] {
        assert rest[i] == listing[i + 1] && rest[j] == listing[j + 1];
      }
      CountSessionFilesIsSetSize(rest);
      var all := set f | f in listing && EndsWith(f, SessionExtension);
      var tail := set f | f in rest && EndsWith(f, SessionExtension);
      assert x !in rest;
      if EndsWith(x, SessionExtension) {
        assert all == tail + {x};
      } else {
        assert all == tail;
      }
    }
  }

  /** A listing gaining one more session file counts one more. */
  lemma {:induction false} CountSessionFilesAppend(listing: seq<string>, name: string)
    ensures CountSessionFiles(listing + [name])
         == CountSessionFiles(listing) + (if EndsWith(name, SessionExtension) then 1 else 0)
  {
    if listing == [] {
      assert [name][1..] == [];
    } else {
      assert (listing + [name])[1..] == listing[1..] + [name];
      CountSessionFilesAppend(listing[1..], name);
    }
  }
}

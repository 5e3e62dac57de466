/** A text stream with fgets() and feof(), as far as the profile file needs them. */
module TextFiles {

  // Where fgets() stops that starts at position i with room for n characters.
  function LineEnd(text: string, i: nat, n: nat): (end: nat)
    requires i <= |text|
    ensures i <= end <= |text|
    ensures i < |text| && n > 0 ==> i < end
    decreases |text| - i
  {
    if i == |text| || n == 0 then i
    else if text[i] == '\n' then i + 1
    else LineEnd(text, i + 1, n - 1)
  }

  // Whether it runs into the end of the file on its way.
  predicate HitsEnd(text: string, i: nat, n: nat)
    requires i <= |text|
    decreases |text| - i
  {
    n > 0 && (i == |text| || (text[i] != '\n' && HitsEnd(text, i + 1, n - 1)))
  }

  // A line that leaves room for its newline is taken whole; one that fills the room loses it.
  lemma {:induction false} LineTaken(text: string, i: nat, k: nat, n: nat)
    requires i + k < |text| && text[i + k] == '\n' && k <= n
    requires forall j :: i <= j < i + k ==> text[j] != '\n'
    ensures LineEnd(text, i, n) == if k < n then i + k + 1 else i + k
    ensures !HitsEnd(text, i, n)
    decreases k
  {
    if k > 0 {
      LineTaken(text, i + 1, k - 1, n - 1);
    }
  }

  // n characters without a newline fill the room, and the rest stays in the file.
  lemma {:induction false} RoomFilled(text: string, i: nat, n: nat)
    requires i + n <= |text| && forall j :: i <= j < i + n ==> text[j] != '\n'
    ensures LineEnd(text, i, n) == i + n && !HitsEnd(text, i, n)
    decreases n
  {
    if n > 0 {
      RoomFilled(text, i + 1, n - 1);
    }
  }

  // The stream reads the file from its start and appends at its end ("a+").
  class TextFile {
    var text: string
    var pos: nat
    var eof: bool

    ghost predicate Valid()
      reads this
    {
      pos <= |text|
    }

    constructor (text: string)
      ensures Valid() && this.text == text && pos == 0 && !eof
    {
      this.text, pos, eof := text, 0, false;
    }

    // fgets(line, size, f) on a zeroed buffer, before the end of the file was met
    method Gets(size: nat) returns (line: string)
      requires Valid() && !eof && size > 0
      modifies this`pos, this`eof
      ensures Valid()
      ensures pos == LineEnd(text, old(pos), size - 1)
      ensures line == text[old(pos)..pos]
      ensures eof == HitsEnd(text, old(pos), size - 1)
    {
      line := "";
      var room := size - 1;
      while room > 0
        invariant !eof && old(pos) <= pos <= |text| && line == text[old(pos)..pos]
        invariant LineEnd(text, old(pos), size - 1) == LineEnd(text, pos, room)
        invariant HitsEnd(text, old(pos), size - 1) == HitsEnd(text, pos, room)
      {
        if pos == |text| {
          eof := true;
          break;
        }
        var c := text[pos];
        assert text[old(pos)..pos + 1] == text[old(pos)..pos] + [c];
        line := line + [c];
        pos := pos + 1;
        room := room - 1;
        if c == '\n' {
          break;
        }
      }
    }

    // fprintf() on a stream opened with "a+"
    method Append(s: string)
      requires Valid()
      modifies this`text
      ensures Valid() && text == old(text) + s
    {
      text := text + s;
    }
  }
}

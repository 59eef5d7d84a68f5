/** The growable text buffer of the exporter, and the printer that fills it, refining the exposition. */
module Formatting {
  import opened Basics
  import opened TextFormat

  /** METRIC_BUFFER_SIZE, and the room every formatted append asks for. */
  const INITIAL_SIZE: nat := 65536
  const APPEND_ROOM: nat := 1024

  function Pow2(k: nat): nat { if k == 0 then 1 else 2 * Pow2(k - 1) }

  /** The size after room for `needed` characters has been asked for: at most one doubling. */
  function GrownSize(size: nat, offset: nat, needed: nat): nat {
    if offset + needed >= size then 2 * size else size
  }

  /** A formatted piece and its terminating NUL fit behind `offset`. */
  predicate PieceFits(size: nat, offset: nat, length: nat) {
    length < GrownSize(size, offset, APPEND_ROOM) - offset
  }

  /** A piece fits after at most one doubling wherever the text ends exactly if it has at most 1024 characters:
      any longer one is cut where 1025 characters are left, for which the fixed request does not grow the buffer. */
  lemma {:induction false} OneDoublingSuffices(size: nat, length: nat)
    requires 65536 <= size
    ensures (forall offset: nat :: offset < size ==> PieceFits(size, offset, length)) <==> length <= 1024
  {
    var offset: nat := size - APPEND_ROOM - 1;
    assert PieceFits(size, offset, length) <==> length <= APPEND_ROOM;
  }

  /** No size is large enough for every piece: the room asked for does not depend on the length. */
  lemma {:induction false} LongPieceTruncated(size: nat, offset: nat, length: nat)
    requires offset < size
    ensures length >= 2 * size ==> !PieceFits(size, offset, length)
    ensures APPEND_ROOM < length < size ==> PieceFits(size, 0, length) && !PieceFits(size, size - length, length)
  {
  }

  class FormatterBuffer {
    var data: array<char>
    var offset: nat
    var size: nat
    /** How often the buffer grew, and how many characters growing has copied. */
    ghost var doublings: nat
    ghost var copied: nat

    /** The text ends inside the buffer, which has doubled from its initial size. */
    ghost predicate Sized()
      reads this
    {
      offset < size == data.Length && size == INITIAL_SIZE * Pow2(doublings) == INITIAL_SIZE + copied
    }

    /** Only requests of at most 1024 characters have made it grow. */
    ghost predicate Valid()
      reads this
    {
      Sized() && (size == INITIAL_SIZE || size <= 2 * (offset + APPEND_ROOM))
    }

    ghost function Text(): string
      requires Sized()
      reads this, data
    {
      data[..offset]
    }

    constructor ()
      ensures Valid() && fresh(data)
      ensures Text() == "" && size == 65536
    {
      offset := 0;
      size := INITIAL_SIZE;
      data := new char[INITIAL_SIZE];
      doublings, copied := 0, 0;
    }

    method EnsureCapacity(needed: nat)
      requires Valid()
      modifies this
      ensures Sized() && Text() == old(Text()) && offset == old(offset)
      ensures size == GrownSize(old(size), offset, needed)
      ensures offset + needed < size <==> offset + needed < 2 * old(size)
      ensures needed <= APPEND_ROOM ==> Valid() && offset + needed < size
      ensures if size == old(size) then data == old(data) else fresh(data)
    {
      if offset + needed >= size {
        var grown := new char[2 * size];
        var i := 0;
        while i < size
          invariant i <= size
          invariant forall k :: 0 <= k < i ==> grown[k] == data[k]
          modifies grown
        {
          grown[i] := data[i];
          i := i + 1;
        }
        assert grown[..offset] == data[..offset];
        copied := copied + size;
        doublings := doublings + 1;
        size := 2 * size;
        data := grown;
      }
    }

    /** Appends a formatted piece; the offset advances by its whole length even when it had to be cut. */
    method Append(piece: string)
      requires Valid()
      modifies this, data
      ensures fresh(data) || data == old(data)
      ensures offset == old(offset) + |piece| && size == data.Length == GrownSize(old(size), old(offset), APPEND_ROOM)
      ensures var kept := Min(|piece|, size - old(offset) - 1);
        data[..old(offset) + kept] == old(Text()) + piece[..kept] && data[old(offset) + kept] == '\0'
      ensures Valid() <==> PieceFits(old(size), old(offset), |piece|)
      ensures PieceFits(old(size), old(offset), |piece|) ==> Text() == old(Text()) + piece && data[offset] == '\0'
    {
      EnsureCapacity(APPEND_ROOM);
      Vsnprintf(data, offset, piece);
      offset := offset + |piece|;
      assert piece[..|piece|] == piece;
    }

    method AppendEscapedChar(c: char)
      requires Valid()
      modifies this, data
      ensures fresh(data) || data == old(data)
      ensures Valid() && Text() == old(Text()) + EscapeChar(c)
    {
      match c
      case '"' => Append("\\\"");
      case '\\' => Append("\\\\");
      case '\n' => Append("\\n");
      case _ =>
        EnsureCapacity(1);
        data[offset] := c;
        offset := offset + 1;
    }

    method AppendEscaped(str: string)
      requires Valid()
      modifies this, data
      ensures fresh(data) || data == old(data)
      ensures Valid() && Text() == old(Text()) + Escape(str)
    {
      var i := 0;
      ghost var before := Text();
      assert before + Escape(str[..0]) == before;
      while i < |str|
        invariant i <= |str|
        invariant fresh(data) || data == old(data)
        invariant Valid() && Text() == before + Escape(str[..i])
      {
        AppendEscapedChar(str[i]);
        EscapeNext(str, i, before);
        i := i + 1;
      }
      assert str[..i] == str;
    }
  }

  /** vsnprintf into the room behind `at`: as much of the piece as fits, and a NUL. */
  method Vsnprintf(data: array<char>, at: nat, piece: string)
    requires at < data.Length
    modifies data
    ensures var kept := Min(|piece|, data.Length - at - 1);
      data[..at + kept] == old(data[..at]) + piece[..kept] && data[at + kept] == '\0'
  {
    var kept := Min(|piece|, data.Length - at - 1);
    var i := 0;
    while i < kept
      invariant i <= kept
      invariant data[..at] == old(data[..at])
      invariant forall k :: 0 <= k < i ==> data[at + k] == piece[k]
    {
      data[at + i] := piece[i];
      i := i + 1;
    }
    data[at + kept] := '\0';
  }

  lemma {:induction false} EscapeNext(str: string, i: nat, before: string)
    requires i < |str|
    ensures before + Escape(str[..i + 1]) == before + Escape(str[..i]) + EscapeChar(str[i])
  {
    assert str[..i + 1] == str[..i] + [str[i]];
    EscapeConcat(str[..i], [str[i]]);
    assert [str[i]][1..] == "" && EscapeChar(str[i]) + "" == EscapeChar(str[i]);
    assert Escape([str[i]]) == EscapeChar(str[i]) + Escape("");
  }
}

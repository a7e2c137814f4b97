/**
 * `str::fromws` and `str::tows` on Linux: conversion between a
 * NUL-terminated wide string and a narrow `std::string`. A narrow
 * character is its byte value (0 .. 255); a wide character is a 32-bit
 * `wchar_t`, taken as an `int`.
 */
module Strings {

  /** A byte value. */
  type Byte = b: nat | b < 256

  /** `char` to `wchar_t`: `char` is signed on the Linux ABIs, so bytes from 0x80 sign-extend. */
  function Widen(b: Byte): int {
    if b < 128 then b else b - 256
  }

  /** `wchar_t` to `char`: the low eight bits. */
  function Narrow(w: int): Byte {
    w % 256
  }

  lemma NarrowWiden(b: Byte)
    ensures Narrow(Widen(b)) == b
  {
  }

  /** `wcslen`: the number of wide characters before the first NUL. */
  function WcsLen(ws: seq<int>): (n: nat)
    requires 0 in ws
    ensures n < |ws| && ws[n] == 0
    ensures forall k :: 0 <= k < n ==> ws[k] != 0
  {
    if ws[0] == 0 then 0
    else
      assert 0 in ws[1..];
      1 + WcsLen(ws[1..])
  }

  /** `fromws`: the narrowed characters before the terminating NUL. */
  function FromWs(ws: seq<int>): (r: seq<Byte>)
    requires 0 in ws
    ensures |r| == WcsLen(ws)
    ensures forall k :: 0 <= k < |r| ==> r[k] == Narrow(ws[k])
  {
    seq(WcsLen(ws), k requires 0 <= k < WcsLen(ws) => Narrow(ws[k]))
  }

  /** The wide string `tows` is meant to return: every character widened. */
  function WidenAll(str: seq<Byte>): (r: seq<int>)
    ensures |r| == |str|
    ensures forall k :: 0 <= k < |r| ==> r[k] == Widen(str[k])
  {
    seq(|str|, k requires 0 <= k < |str| => Widen(str[k]))
  }

  /**
   * `tows` as written: it builds the wide string, then copies from the new
   * zero-filled vector INTO that string, so the vector it returns keeps its
   * zeros.
   */
  method TowsAsWritten(str: seq<Byte>) returns (r: seq<int>)
    ensures |r| == |str|
    ensures forall k :: 0 <= k < |r| ==> r[k] == 0
  {
    var wstr := new int[|str|](k requires 0 <= k < |str| => Widen(str[k]));
    var vec := new int[|str|](_ => 0);
    var i := 0;
    while i < vec.Length
      invariant i <= vec.Length == wstr.Length
      invariant forall k :: 0 <= k < vec.Length ==> vec[k] == 0
      modifies wstr
    {
      wstr[i] := vec[i];
      i := i + 1;
    }
    r := vec[..];
  }

  /** `tows` as evidently intended: the wide string is copied into the vector. */
  method Tows(str: seq<Byte>) returns (r: seq<int>)
    ensures r == WidenAll(str)
  {
    var wstr := new int[|str|](k requires 0 <= k < |str| => Widen(str[k]));
    var vec := new int[|str|](_ => 0);
    var i := 0;
    while i < wstr.Length
      invariant i <= wstr.Length == vec.Length == |str|
      invariant forall k :: 0 <= k < wstr.Length ==> wstr[k] == Widen(str[k])
      invariant forall k :: 0 <= k < i ==> vec[k] == wstr[k]
      modifies vec
    {
      vec[i] := wstr[i];
      i := i + 1;
    }
    r := vec[..];
  }

  /**
   * Round trip: a string without NUL bytes, widened and NUL-terminated,
   * reads back as itself.
   */
  lemma FromWsTows(str: seq<Byte>)
    requires forall k :: 0 <= k < |str| ==> str[k] != 0
    ensures var ws := WidenAll(str) + [0]; 0 in ws && FromWs(ws) == str
  {
    var ws := WidenAll(str) + [0];
    assert ws[|str|] == 0;
    forall k | 0 <= k < |str|
      ensures ws[k] != 0
    {
      assert ws[k] == Widen(str[k]);
    }
    WcsLenAt(ws, |str|);
    forall k | 0 <= k < |str|
      ensures FromWs(ws)[k] == str[k]
    {
      NarrowWiden(str[k]);
    }
  }

  /** A NUL with none before it is where `wcslen` stops. */
  lemma WcsLenAt(ws: seq<int>, n: nat)
    requires n < |ws| && ws[n] == 0 && forall k :: 0 <= k < n ==> ws[k] != 0
    ensures WcsLen(ws) == n
  {
  }

  /** The narrowed string never holds more characters than there are before the NUL. */
  lemma {:induction false} FromWsStopsAtNul(ws: seq<int>, tail: seq<int>)
    requires 0 in ws
    ensures 0 in ws + tail && FromWs(ws + tail) == FromWs(ws)
  {
    var n := WcsLen(ws);
    WcsLenAt(ws + tail, n);
  }
}

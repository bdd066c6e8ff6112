/**
 * The room-entry page: generating a room id, the input checks of the
 * "create room" and "join room" forms, and what they write to the
 * browser's local storage (modelled as a string-to-string map).
 */
module RoomEntry {
  import opened Wrappers

  /** The characters a generated room id is drawn from. */
  const Alphabet: string := "ABCDEFGHIJKLMNOPQRSTUVWXYZ0123456789"

  /** The length of a room id. */
  const IdLength: nat := 12

  // The local-storage keys the forms write.
  const UserNameKey: string := "userName"
  const RoomIdKey: string := "roomId"
  const RoomNameKey: string := "roomName"
  const CapacityKey: string := "roomCapacity"
  const IsHostKey: string := "isHost"

  /** The characters that String.prototype.trim removes: the ECMAScript
      WhiteSpace and LineTerminator code points. */
  predicate IsWhitespace(c: char) {
    var n := c as int;
    || 0x09 <= n <= 0x0D                   // tab, line feed, vertical tab, form feed, carriage return
    || n == 0x20 || n == 0xA0 || n == 0x1680
    || 0x2000 <= n <= 0x200A
    || n == 0x2028 || n == 0x2029           // line and paragraph separator
    || n == 0x202F || n == 0x205F || n == 0x3000
    || n == 0xFEFF                          // byte order mark
  }

  /** `s` with its leading whitespace removed. */
  function TrimStart(s: string): (r: string)
    ensures |r| <= |s| && r == s[|s| - |r|..]
    ensures forall i :: 0 <= i < |s| - |r| ==> IsWhitespace(s[i])
    ensures r == [] || !IsWhitespace(r[0])
  {
    if s != [] && IsWhitespace(s[0]) then TrimStart(s[1..]) else s
  }

  /** `s` with its trailing whitespace removed. */
  function TrimEnd(s: string): (r: string)
    ensures |r| <= |s| && r == s[..|r|]
    ensures forall i :: |r| <= i < |s| ==> IsWhitespace(s[i])
    ensures r == [] || !IsWhitespace(r[|r| - 1])
  {
    if s != [] && IsWhitespace(s[|s| - 1]) then TrimEnd(s[..|s| - 1]) else s
  }

  /** String.prototype.trim. */
  function Trim(s: string): string {
    TrimEnd(TrimStart(s))
  }

  /** A trimmed string is empty exactly when the input is all whitespace. */
  lemma TrimEmpty(s: string)
    ensures Trim(s) == [] <==> forall i :: 0 <= i < |s| ==> IsWhitespace(s[i])
  {
    var t := TrimStart(s);
    if forall i :: 0 <= i < |s| ==> IsWhitespace(s[i]) {
      assert t == [];
    }
  }

  /** Trimming leaves a string that contains no whitespace unchanged. */
  lemma TrimNoWhitespace(s: string)
    requires forall i :: 0 <= i < |s| ==> !IsWhitespace(s[i])
    ensures Trim(s) == s
  {
  }

  /** String.prototype.length: UTF-16 code units, two for a code point
      outside the Basic Multilingual Plane. */
  function Utf16Length(s: string): (n: nat)
    ensures |s| <= n <= 2 * |s|
  {
    if s == [] then 0 else (if s[0] as int > 0xFFFF then 2 else 1) + Utf16Length(s[1..])
  }

  /** A string of Basic Multilingual Plane characters has one code unit per character. */
  lemma {:induction false} Utf16LengthBmp(s: string)
    requires forall i :: 0 <= i < |s| ==> s[i] as int <= 0xFFFF
    ensures Utf16Length(s) == |s|
  {
    if s != [] {
      Utf16LengthBmp(s[1..]);
    }
  }

  /** The index Math.floor(Math.random() * chars.length) for a draw `r`. */
  function PickIndex(r: real): int {
    (r * |Alphabet| as real).Floor
  }

  /** chars.charAt(i): the one-character string, or "" out of range. */
  function CharAt(s: string, i: int): string
  {
    if 0 <= i < |s| then [s[i]] else ""
  }

  /** A draw of Math.random, in [0, 1), picks a character of the alphabet. */
  lemma PickIndexInRange(r: real)
    requires 0.0 <= r < 1.0
    ensures 0 <= PickIndex(r) < |Alphabet|
  {
  }

  /** A well-formed room id: IdLength characters of the alphabet. */
  predicate IsRoomId(id: string) {
    |id| == IdLength && forall i :: 0 <= i < |id| ==> id[i] in Alphabet
  }

  /** `id` is the string the draws spell: its i-th character is the one
      the i-th draw picks. */
  predicate PickedBy(id: string, draws: seq<real>)
    requires forall i :: 0 <= i < |draws| ==> 0.0 <= draws[i] < 1.0
  {
    |id| == |draws| && forall i :: 0 <= i < |id| ==> 0 <= PickIndex(draws[i]) < |Alphabet| && id[i] == Alphabet[PickIndex(draws[i])]
  }

  /**
   * generateRoomId: twelve characters, the i-th picked by the i-th
   * Math.random draw.
   */
  method GenerateRoomId(draws: seq<real>) returns (roomId: string)
    requires |draws| == IdLength
    requires forall i :: 0 <= i < |draws| ==> 0.0 <= draws[i] < 1.0
    ensures IsRoomId(roomId)
    ensures PickedBy(roomId, draws)
  {
    roomId := "";
    for i := 0 to IdLength
      invariant |roomId| == i
      invariant forall j :: 0 <= j < i ==> 0 <= PickIndex(draws[j]) < |Alphabet| && roomId[j] == Alphabet[PickIndex(draws[j])]
    {
      PickIndexInRange(draws[i]);
      roomId := roomId + CharAt(Alphabet, PickIndex(draws[i]));
    }
  }

  /** Why a form was refused, one reason per alert. */
  datatype EntryError = NameMissing | RoomNameMissing | RoomIdMissing | RoomIdWrongLength

  /** The checks of createRoom on the trimmed name and room name, in order. */
  function CreateError(userName: string, roomName: string): (e: Option<EntryError>)
    ensures e == None <==> userName != [] && roomName != []
    ensures e == Some(NameMissing) <==> userName == []
    ensures e == Some(RoomNameMissing) <==> userName != [] && roomName == []
  {
    if userName == [] then Some(NameMissing)
    else if roomName == [] then Some(RoomNameMissing)
    else None
  }

  /** The checks of joinRoom on the trimmed name and room id, in order;
      the id's length is checked, its characters are not. */
  function JoinError(userName: string, roomId: string): (e: Option<EntryError>)
    ensures e == None <==> userName != [] && Utf16Length(roomId) == IdLength
    ensures e == Some(NameMissing) <==> userName == []
    ensures e == Some(RoomIdMissing) <==> userName != [] && roomId == []
    ensures e == Some(RoomIdWrongLength) <==> userName != [] && roomId != [] && Utf16Length(roomId) != IdLength
  {
    if userName == [] then Some(NameMissing)
    else if roomId == [] then Some(RoomIdMissing)
    else if Utf16Length(roomId) != IdLength then Some(RoomIdWrongLength)
    else None
  }

  /** Round trip: a generated id passes the join form's checks, as typed
      or surrounded by whitespace, for any non-blank name. */
  lemma {:induction false} GeneratedIdJoins(userName: string, id: string, pre: string, post: string)
    requires IsRoomId(id)
    requires Trim(userName) != []
    requires forall i :: 0 <= i < |pre| ==> IsWhitespace(pre[i])
    requires forall i :: 0 <= i < |post| ==> IsWhitespace(post[i])
    ensures Trim(pre + id + post) == id
    ensures JoinError(Trim(userName), Trim(pre + id + post)) == None
  {
    forall i | 0 <= i < |id| ensures !IsWhitespace(id[i]) && id[i] as int <= 0xFFFF {
      AlphabetIsPlain(id[i]);
    }
    TrimPadded(pre, id, post);
    Utf16LengthBmp(id);
  }

  /** Every character of the alphabet is an upper-case letter or a digit. */
  lemma AlphabetChars()
    ensures forall i :: 0 <= i < |Alphabet| ==> 'A' <= Alphabet[i] <= 'Z' || '0' <= Alphabet[i] <= '9'
  {
    forall i | 0 <= i < |Alphabet| ensures 'A' <= Alphabet[i] <= 'Z' || '0' <= Alphabet[i] <= '9' {
      if i < 18 {
        assert Alphabet[..18] == "ABCDEFGHIJKLMNOPQR";
        assert Alphabet[i] == Alphabet[..18][i];
      } else {
        assert Alphabet[18..] == "STUVWXYZ0123456789";
        assert Alphabet[i] == Alphabet[18..][i - 18];
      }
    }
  }

  /** A character of the alphabet is not whitespace and is one UTF-16 code unit. */
  lemma AlphabetIsPlain(c: char)
    requires c in Alphabet
    ensures !IsWhitespace(c) && c as int <= 0xFFFF
  {
    AlphabetChars();
    var j :| 0 <= j < |Alphabet| && Alphabet[j] == c;
    assert 'A' <= c <= 'Z' || '0' <= c <= '9';
  }

  /** Leading whitespace in any amount is removed up to the first other character. */
  lemma TrimStartPadded(pre: string, rest: string)
    requires forall i :: 0 <= i < |pre| ==> IsWhitespace(pre[i])
    requires rest != [] && !IsWhitespace(rest[0])
    ensures TrimStart(pre + rest) == rest
  {
    var all := pre + rest;
    var t := TrimStart(all);
    assert all[|pre|] == rest[0];
    assert |t| == |rest|;
  }

  /** Trailing whitespace in any amount is removed back to the last other character. */
  lemma TrimEndPadded(rest: string, post: string)
    requires forall i :: 0 <= i < |post| ==> IsWhitespace(post[i])
    requires rest != [] && !IsWhitespace(rest[|rest| - 1])
    ensures TrimEnd(rest + post) == rest
  {
    var all := rest + post;
    var u := TrimEnd(all);
    assert all[|rest| - 1] == rest[|rest| - 1];
    assert |u| == |rest|;
  }

  /** Trimming removes whitespace on either side, in any amount on each,
      from a string with none at its ends. */
  lemma TrimPadded(pre: string, s: string, post: string)
    requires forall i :: 0 <= i < |pre| ==> IsWhitespace(pre[i])
    requires forall i :: 0 <= i < |post| ==> IsWhitespace(post[i])
    requires s != [] && !IsWhitespace(s[0]) && !IsWhitespace(s[|s| - 1])
    ensures Trim(pre + s + post) == s
  {
    assert pre + s + post == pre + (s + post);
    assert (s + post)[0] == s[0];
    TrimStartPadded(pre, s + post);
    TrimEndPadded(s, post);
  }

  /** What a submitted form leads to: an alert, or the room to enter. */
  datatype Outcome = Rejected(reason: EntryError) | Admitted(roomId: string)

  /** The entry page and the local storage it writes. */
  class EntryPage {
    var storage: map<string, string>

    constructor (initial: map<string, string>)
      ensures storage == initial
    {
      storage := initial;
    }

    /**
     * createRoom, given the raw form fields and the Math.random draws: on
     * a blank name or room name, alert and write nothing; otherwise
     * generate an id and store the session with isHost = "true". The
     * capacity is stored as typed, untrimmed.
     */
    method CreateRoom(userNameField: string, roomNameField: string, capacity: string, draws: seq<real>)
      returns (outcome: Outcome)
      requires |draws| == IdLength
      requires forall i :: 0 <= i < |draws| ==> 0.0 <= draws[i] < 1.0
      modifies this
      ensures var e := CreateError(Trim(userNameField), Trim(roomNameField));
        e.Some? ==> outcome == Rejected(e.value) && storage == old(storage)
      ensures var e := CreateError(Trim(userNameField), Trim(roomNameField));
        e.None? ==>
          && outcome.Admitted? && IsRoomId(outcome.roomId)
          && storage == old(storage)[UserNameKey := Trim(userNameField)][RoomIdKey := outcome.roomId]
               [RoomNameKey := Trim(roomNameField)][CapacityKey := capacity][IsHostKey := "true"]
      ensures outcome.Admitted? ==> PickedBy(outcome.roomId, draws)
    {
      var userName := Trim(userNameField);
      var roomName := Trim(roomNameField);
      if userName == [] {
        return Rejected(NameMissing);
      }
      if roomName == [] {
        return Rejected(RoomNameMissing);
      }
      var roomId := GenerateRoomId(draws);
      storage := storage[UserNameKey := userName];
      storage := storage[RoomIdKey := roomId];
      storage := storage[RoomNameKey := roomName];
      storage := storage[CapacityKey := capacity];
      storage := storage[IsHostKey := "true"];
      outcome := Admitted(roomId);
    }

    /**
     * joinRoom, given the raw form fields: on a blank name, a blank id or
     * an id that is not IdLength long, alert and write nothing; otherwise
     * store the name, the trimmed id and isHost = "false", leaving every
     * other key (room name, capacity) as it was.
     */
    method JoinRoom(userNameField: string, roomIdField: string) returns (outcome: Outcome)
      modifies this
      ensures var e := JoinError(Trim(userNameField), Trim(roomIdField));
        e.Some? ==> outcome == Rejected(e.value) && storage == old(storage)
      ensures var e := JoinError(Trim(userNameField), Trim(roomIdField));
        e.None? ==>
          && outcome == Admitted(Trim(roomIdField))
          && storage == old(storage)[UserNameKey := Trim(userNameField)][RoomIdKey := Trim(roomIdField)][IsHostKey := "false"]
      ensures forall k :: k in old(storage) && k != UserNameKey && k != RoomIdKey && k != IsHostKey ==>
        k in storage && storage[k] == old(storage)[k]
    {
      var userName := Trim(userNameField);
      var roomId := Trim(roomIdField);
      if userName == [] {
        return Rejected(NameMissing);
      }
      if roomId == [] {
        return Rejected(RoomIdMissing);
      }
      if Utf16Length(roomId) != IdLength {
        return Rejected(RoomIdWrongLength);
      }
      storage := storage[UserNameKey := userName];
      storage := storage[RoomIdKey := roomId];
      storage := storage[IsHostKey := "false"];
      outcome := Admitted(roomId);
    }
  }
}

/** The svgalib keyboard backend: the code table from normalized key codes
    to svgalib scancodes, its build at init time, and the per-key and bulk
    key-state queries that go through it. The svgalib and SDL calls are
    outside this model: their answers are parameters. */
module KeybSvgalib {
  import opened CodeTable
  import opened SvgalibKeys

  /** One element of the caller's key-state buffer (an unsigned char). */
  newtype byte = x: int | 0 <= x < 256

  /** Storing a native answer into an unsigned char keeps its low eight bits. */
  function ToByte(x: nat): (b: byte)
    ensures b as int == x % 256
    ensures x < 256 ==> b as int == x
  {
    (x % 256) as byte
  }

  /** What init learns from outside this file: whether the svgalib library
      was started, whether SDL video is already initialised (always false
      in a build without SDL video), and what keyboard_init() answers when
      it is called. */
  datatype Platform = Platform(
    svgalibInitialized: bool,
    sdlVideoInitialized: bool,
    keyboardInitResult: int)

  /** The capability flags of this driver: none. */
  function Flags(): (f: nat)
    ensures f == 0
  {
    0
  }

  /** The backend's state: the table from normalized codes to scancodes.
      In the program it is one static object, so it starts out all zero. */
  class Svgalib {
    const codes: KeyCodes
    var mapOsToCode: array<nat>

    ghost predicate Valid()
      reads this
    {
      codes.Valid() && mapOsToCode.Length == codes.keybMax
    }

    /** The current contents of the table. */
    function Table(): (t: seq<nat>)
      reads this, mapOsToCode
      ensures |t| == mapOsToCode.Length
    {
      mapOsToCode[..]
    }

    constructor (codes: KeyCodes)
      requires codes.Valid()
      ensures Valid() && this.codes == codes && fresh(mapOsToCode)
      ensures Table() == Zeros(codes.keybMax)
    {
      this.codes := codes;
      mapOsToCode := new nat[codes.keybMax](_ => 0);
    }

    /** Clears the table, then walks `ps` up to the sentinel writing each
        native code at its normalized code. */
    method BuildTable(ps: seq<Pair>)
      requires Valid() && Terminated(ps, codes.keybMax)
      modifies mapOsToCode
      ensures Table() == Built(ps, codes.keybMax)
    {
      var max := codes.keybMax;
      var j := 0;
      while j < max
        invariant 0 <= j <= max
        invariant forall k :: 0 <= k < j ==> mapOsToCode[k] == 0
      {
        mapOsToCode[j] := 0;
        j := j + 1;
      }
      assert Table() == Zeros(max);
      ghost var n := Walked(ps, max);
      var i := 0;
      while ps[i].os != max
        invariant 0 <= i <= n
        invariant Table() == Overlay(Zeros(max), ps[..i])
        decreases n - i
      {
        assert ps[..i + 1][..i] == ps[..i];
        mapOsToCode[ps[i].os] := ps[i].code;
        i := i + 1;
      }
    }

    /** Checks that svgalib runs and SDL video does not, builds the table
        from the static list and starts the svgalib keyboard. Answers 0 on
        success and -1 on any failure; `keyboardInitCalled` tells whether
        keyboard_init() was reached. */
    method Init(keybId: int, disableSpecial: bool, env: Platform)
      returns (r: int, keyboardInitCalled: bool)
      requires Valid()
      modifies mapOsToCode
      ensures r == 0 || r == -1
      ensures r == 0 <==>
        env.svgalibInitialized && !env.sdlVideoInitialized && env.keyboardInitResult == 0
      ensures keyboardInitCalled <==> env.svgalibInitialized && !env.sdlVideoInitialized
      ensures !keyboardInitCalled ==> Table() == old(Table())
      ensures keyboardInitCalled ==>
        Terminated(Keys(codes), codes.keybMax) && Table() == Built(Keys(codes), codes.keybMax)
    {
      if !env.svgalibInitialized {
        return -1, false;
      }
      if env.sdlVideoInitialized {
        return -1, false;
      }
      KeysWalk(codes);
      BuildTable(Keys(codes));
      if env.keyboardInitResult != 0 {
        return -1, true;
      }
      return 0, true;
    }

    /** The state of one normalized key, given the native per-scancode
        state `pressed` of this frame: the pause key always reads 0, an
        unmapped key reads 0, any other key reads its scancode's state. */
    function Get(code: nat, pressed: nat -> nat): (r: nat)
      reads this, mapOsToCode
      requires Valid() && code < codes.keybMax
      ensures code == codes.keyb(Pause) ==> r == 0
      ensures mapOsToCode[code] == 0 ==> r == 0
      ensures code != codes.keyb(Pause) && mapOsToCode[code] != 0 ==>
        r == pressed(mapOsToCode[code])
    {
      if code == codes.keyb(Pause) then 0
      else
        var native := mapOsToCode[code];
        if native == 0 then 0 else pressed(native)
    }

    /** For the pause key and for unmapped keys the native state is never
        consulted: any two native states give the same answer. */
    lemma GetIgnoresNative(code: nat, p: nat -> nat, q: nat -> nat)
      requires Valid() && code < codes.keybMax
      requires code == codes.keyb(Pause) || mapOsToCode[code] == 0
      ensures Get(code, p) == Get(code, q) == 0
    {
    }

    /** After init has built the table, and if no other key shares the
        pause key's code, the pause key is mapped to SCANCODE_BREAK and still
        reads 0 in every native state. */
    lemma PauseDisabled(p: nat -> nat)
      requires Valid()
      requires forall k :: k != Pause ==> codes.keyb(k) != codes.keyb(Pause)
      requires Terminated(Keys(codes), codes.keybMax)
      requires Table() == Built(Keys(codes), codes.keybMax)
      ensures mapOsToCode[codes.keyb(Pause)] == codes.scancode(ScBreak)
      ensures Get(codes.keyb(Pause), p) == 0
    {
      KeysPauseMapped(codes);
      assert Table()[codes.keyb(Pause)] == mapOsToCode[codes.keyb(Pause)];
    }

    /** After init has built the table, a normalized code that no listed
        key has reads 0 in every native state. */
    lemma UnlistedReleased(code: nat, p: nat -> nat)
      requires Valid()
      requires code < codes.keybMax
      requires forall k :: codes.keyb(k) != code
      requires Terminated(Keys(codes), codes.keybMax)
      requires Table() == Built(Keys(codes), codes.keybMax)
      ensures mapOsToCode[code] == 0
      ensures Get(code, p) == 0
    {
      KeysUnlisted(codes, code);
      assert Table()[code] == mapOsToCode[code];
    }

    /** Fills the first KEYB_MAX bytes of `codeMap` with the state of every
        normalized key, then clears the pause slot. */
    method AllGet(codeMap: array<byte>, pressed: nat -> nat)
      requires Valid() && codeMap.Length >= codes.keybMax
      modifies codeMap
      ensures Table() == old(Table())
      ensures forall i :: 0 <= i < codes.keybMax ==> codeMap[i] == ToByte(Get(i, pressed))
      ensures (forall s :: pressed(s) < 256) ==>
        forall i :: 0 <= i < codes.keybMax ==> codeMap[i] as int == Get(i, pressed)
      ensures forall i :: codes.keybMax <= i < codeMap.Length ==> codeMap[i] == old(codeMap[i])
    {
      var max := codes.keybMax;
      var i := 0;
      while i < max
        invariant 0 <= i <= max
        invariant forall k :: 0 <= k < i ==>
          codeMap[k] == if mapOsToCode[k] != 0 then ToByte(pressed(mapOsToCode[k])) else 0
        invariant forall k :: i <= k < codeMap.Length ==> codeMap[k] == old(codeMap[k])
      {
        var native := mapOsToCode[i];
        if native != 0 {
          codeMap[i] := ToByte(pressed(native));
        } else {
          codeMap[i] := 0;
        }
        i := i + 1;
      }
      codeMap[codes.keyb(Pause)] := 0;
    }
  }
}

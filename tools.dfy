/** The selected tool and the registry of sticker glyphs. */
module Tools {

  const ThickMarkerThickness: int := 9

  /** The glyphs offered when the app starts. */
  const InitialStickers: seq<string> := ["\U{274C}", "\U{1F44D}", "\U{1F44E}"]

  /** A marker of some thickness, or a sticker with its glyph. */
  datatype Tool = MarkerTool(thickness: int) | StickerTool(sticker: string)

  /** What the sticker prompt hands back: nothing when it is cancelled. */
  datatype Option<T> = None | Some(value: T)

  /** No glyph is registered twice. */
  predicate Distinct(reg: seq<string>)
  {
    forall i, j :: 0 <= i < j < |reg| ==> reg[i] != reg[j]
  }

  /** A registry as the sticker prompt keeps it: no empty glyph, no duplicate. */
  predicate RegistryOk(reg: seq<string>)
  {
    Distinct(reg) && "" !in reg
  }

  /** The prompt's guard: an answer that is present, not empty, and not yet registered. */
  predicate Accepts(reg: seq<string>, input: Option<string>)
  {
    input.Some? && input.value != "" && input.value !in reg
  }

  /** The registry after the prompt answered `input`. */
  function Register(reg: seq<string>, input: Option<string>): (r: seq<string>)
    ensures RegistryOk(reg) ==> RegistryOk(r)
    ensures Accepts(reg, input) ==> |r| == |reg| + 1 && r[|reg|] == input.value
    ensures !Accepts(reg, input) ==> r == reg
    ensures r[..|reg|] == reg
  {
    if Accepts(reg, input) then reg + [input.value] else reg
  }

  /** A glyph of a registry without duplicates occurs in it exactly once. */
  lemma {:induction false} DistinctOnce(reg: seq<string>, glyph: string)
    requires Distinct(reg) && glyph in reg
    ensures multiset(reg)[glyph] == 1
    decreases |reg|
  {
    var init := reg[..|reg| - 1];
    var last := reg[|reg| - 1];
    assert reg == init + [last];
    if glyph == last {
      assert glyph !in init;
    } else {
      DistinctOnce(init, glyph);
    }
  }

  /** After a glyph has been offered, whether accepted or not, it is registered
      exactly once, and offering it again changes nothing. */
  lemma RegisterTwice(reg: seq<string>, glyph: string)
    requires RegistryOk(reg) && glyph != ""
    ensures glyph in Register(reg, Some(glyph))
    ensures multiset(Register(reg, Some(glyph)))[glyph] == 1
    ensures Register(Register(reg, Some(glyph)), Some(glyph)) == Register(reg, Some(glyph))
  {
    var r := Register(reg, Some(glyph));
    if glyph !in reg {
      assert r[|reg|] == glyph;
    }
    DistinctOnce(r, glyph);
  }

  lemma InitialRegistryOk()
    ensures RegistryOk(InitialStickers)
  {
  }
}

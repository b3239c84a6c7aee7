/** `transformRow` (services/processor.ts): one exogenous row and a target
    value become a feature row, with missing features zero-filled and the ENSO
    phase read from a free-text label. */
module RowTransform {
  import opened Wrappers
  import opened Calendar
  import opened Types

  /** `toLowerCase` on one UTF-16 code unit, for ASCII and Latin-1: A-Z and
      the Latin-1 capitals U+00C0..U+00DE (except U+00D7, the multiplication
      sign) move up by 0x20, which takes Ñ to ñ. */
  function LowerChar(c: char): char
  {
    if 'A' <= c <= 'Z' || ('\U{00C0}' <= c <= '\U{00DE}' && c != '\U{00D7}')
    then (c as int + 32) as char
    else c
  }

  function ToLower(s: string): (l: string)
    ensures |l| == |s|
    ensures forall i :: 0 <= i < |s| ==> l[i] == LowerChar(s[i])
  {
    if s == [] then [] else [LowerChar(s[0])] + ToLower(s[1..])
  }

  /** `s.includes(t)`: t occurs in s at some position. */
  predicate Contains(s: string, t: string)
  {
    t <= s || (s != [] && Contains(s[1..], t))
  }

  /** Contains agrees with the positional reading: t starts at some index of s. */
  lemma {:induction false} ContainsAt(s: string, t: string)
    ensures Contains(s, t) <==> exists i :: 0 <= i <= |s| && t <= s[i..]
  {
    if t <= s {
      assert t <= s[0..];
    } else if s == [] {
    } else {
      ContainsAt(s[1..], t);
      if Contains(s[1..], t) {
        var i :| 0 <= i <= |s[1..]| && t <= s[1..][i..];
        assert s[1..][i..] == s[i + 1..];
      } else {
        forall i | 0 <= i <= |s|
          ensures !(t <= s[i..])
        {
          if i > 0 {
            assert s[1..][i - 1..] == s[i..];
          }
        }
      }
    }
  }

  const NinaText: string := "ni\U{00F1}a"
  const NinoText: string := "ni\U{00F1}o"

  /** The phase logic of `transformRow`, redundant check included: La Niña
      when the lower-cased label contains "niña"; otherwise El Niño when it
      contains "niño" and not "niña"; otherwise Neutral. A missing label reads
      as the empty string. So the label gets La Niña iff "niña" occurs,
      El Niño iff "niño" occurs and "niña" does not, and Neutral iff neither
      occurs. */
  function ClassifyPhase(ensoLabel: Option<string>): (ph: Phase)
    ensures var l := ToLower(ensoLabel.GetOr(""));
      && (ph == LaNina <==> Contains(l, NinaText))
      && (ph == ElNino <==> !Contains(l, NinaText) && Contains(l, NinoText))
      && (ph == Neutral <==> !Contains(l, NinaText) && !Contains(l, NinoText))
  {
    var raw := ToLower(ensoLabel.GetOr(""));
    if Contains(raw, NinaText) then LaNina
    else if Contains(raw, NinoText) && !Contains(raw, NinaText) then ElNino
    else Neutral
  }

  /** A missing ensoLabel gives Neutral. */
  lemma MissingLabelIsNeutral()
    ensures ClassifyPhase(None) == Neutral
  {
    assert ToLower("") == "";
  }

  /** "La Niña" reads as La Niña. */
  lemma LaNinaExample()
    ensures ClassifyPhase(Some("La Ni\U{00F1}a")) == LaNina
  {
    var l := ToLower("La Ni\U{00F1}a");
    assert l == "la ni\U{00F1}a";
    assert NinaText <= l[3..];
    ContainsAt(l, NinaText);
  }

  /** "EL NIÑO" reads as El Niño: lower-casing takes Ñ to ñ. */
  lemma ElNinoExample()
    ensures ClassifyPhase(Some("EL NI\U{00D1}O")) == ElNino
  {
    var l := ToLower("EL NI\U{00D1}O");
    assert l == "el ni\U{00F1}o";
    assert NinoText <= l[3..];
    ContainsAt(l, NinoText);
    NoNinaInElNino();
  }

  /** "el niño" does not contain "niña". */
  lemma NoNinaInElNino()
    ensures !Contains("el ni\U{00F1}o", NinaText)
  {
    var l := "el ni\U{00F1}o";
    ContainsAt(l, NinaText);
    forall i | 0 <= i <= |l|
      ensures !(NinaText <= l[i..])
    {
      if i == 3 {
        assert l[i + 3] != NinaText[3];
      } else if i < |l| {
        assert l[i] != NinaText[0];
      }
    }
  }

  /** A label naming both phases reads as La Niña, which takes precedence. */
  lemma BothPhasesExample()
    ensures ClassifyPhase(Some("Ni\U{00F1}o/Ni\U{00F1}a")) == LaNina
  {
    var l := ToLower("Ni\U{00F1}o/Ni\U{00F1}a");
    assert l == "ni\U{00F1}o/ni\U{00F1}a";
    assert NinaText <= l[5..];
    ContainsAt(l, NinaText);
  }

  /** `transformRow(date, gm, exog)`: missing features read as 0 (`|| 0`),
      `termica_x_gas` is the zero-filled thermal share times the zero-filled
      gas price, and no forecast field is set yet. The row keeps its date
      and is keyed by its month; a present feature keeps its value, the
      interaction is the product of both factors when both are present and
      vanishes when either is missing, and the phase is the label's
      classification. */
  function TransformRow(date: YearMonth, gm: real, exog: ExogenousRow): (r: ProcessedRow)
    ensures r.date == date && r.mesAno == MonthKey(date) && r.gmReal == gm
    ensures Features(r) == [exog.precioGas.GetOr(0.0), exog.ipcIndice.GetOr(0.0), exog.trm.GetOr(0.0),
                            exog.deficit.GetOr(0.0), exog.hidraulica.GetOr(0.0), r.termicaXGas]
    ensures exog.precioGas.Some? ==> r.precioGas == exog.precioGas.value
    ensures exog.ipcIndice.Some? ==> r.ipc == exog.ipcIndice.value
    ensures exog.trm.Some? ==> r.trm == exog.trm.value
    ensures exog.deficit.Some? ==> r.deficit == exog.deficit.value
    ensures exog.hidraulica.Some? ==> r.hidraulica == exog.hidraulica.value
    ensures exog.termica.Some? && exog.precioGas.Some? ==>
      r.termicaXGas == exog.termica.value * exog.precioGas.value
    ensures exog.termica.None? || exog.precioGas.None? ==> r.termicaXGas == 0.0
    ensures r.fase == ClassifyPhase(exog.faseEnso)
    ensures r.gmFederico.None? && r.gmV2.None? && r.gmConsenso.None? && r.gmV3.None?
    ensures r.gmP10.None? && r.gmP90.None?
  {
    var termica := exog.termica.GetOr(0.0);
    var precioGas := exog.precioGas.GetOr(0.0);
    ProcessedRow(
      date, MonthKey(date),
      precioGas, exog.ipcIndice.GetOr(0.0), exog.trm.GetOr(0.0), exog.deficit.GetOr(0.0),
      exog.hidraulica.GetOr(0.0), termica * precioGas,
      ClassifyPhase(exog.faseEnso),
      gm,
      None, None, None, None, None, None)
  }

  /** A row with no exogenous values has all six features 0 and the Neutral phase. */
  lemma TransformRowZeroFill(date: YearMonth, gm: real, fecha: Option<YearMonth>, mesAno: MesAnoColumn)
    ensures var r := TransformRow(date, gm, ExogenousRow(fecha, mesAno, None, None, None, None, None, None, None));
      && Features(r) == [0.0, 0.0, 0.0, 0.0, 0.0, 0.0]
      && r.fase == Neutral
      && r.gmReal == gm
  {
    MissingLabelIsNeutral();
  }
}

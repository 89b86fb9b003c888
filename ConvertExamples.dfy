/**
 * Worked conversions of single formula terms by the strategy compiler,
 * each proved against the full pattern list and name table.
 */
module ConvertExamples {
  import opened Common
  import opened Rewrite
  import opened StrategyLoader

  // ------------------------------------------------------------ skipping

  /** Text without 'E' has no `EMA(` for pattern 0 to match. */
  lemma PatternSkip0(s: string)
    requires 'E' !in s
    ensures PatternsFrom(0, s) == PatternsFrom(1, s)
  {
    assert Patterns[0] == Indicator("EMA", "ema");
    assert Lead(Patterns[0]) == "EMA(";
    assert "EMA("[0] == 'E';
    SkipPattern(0, s, 'E');
  }

  /** Text without 'T' has no `ATR(` for pattern 1 to match. */
  lemma PatternSkip1(s: string)
    requires 'T' !in s
    ensures PatternsFrom(1, s) == PatternsFrom(2, s)
  {
    assert Patterns[1] == Indicator("ATR", "atr");
    assert Lead(Patterns[1]) == "ATR(";
    assert "ATR("[1] == 'T';
    SkipPattern(1, s, 'T');
  }

  /** Text without 'R' has no `RSI(` for pattern 2 to match. */
  lemma PatternSkip2(s: string)
    requires 'R' !in s
    ensures PatternsFrom(2, s) == PatternsFrom(3, s)
  {
    assert Patterns[2] == Indicator("RSI", "rsi");
    assert Lead(Patterns[2]) == "RSI(";
    assert "RSI("[0] == 'R';
    SkipPattern(2, s, 'R');
  }

  /** Text without 'F' has no `MFI(` for pattern 3 to match. */
  lemma PatternSkip3(s: string)
    requires 'F' !in s
    ensures PatternsFrom(3, s) == PatternsFrom(4, s)
  {
    assert Patterns[3] == Indicator("MFI", "mfi");
    assert Lead(Patterns[3]) == "MFI(";
    assert "MFI("[1] == 'F';
    SkipPattern(3, s, 'F');
  }

  lemma NameSkip0(s: string)
    requires 'C' !in s
    ensures NamesFrom(0, s) == NamesFrom(1, s)
  {
    assert SimpleMap[0].0 == "Close";
    SkipName(0, s, 'C');
  }

  lemma NameSkip1(s: string)
    requires 'O' !in s
    ensures NamesFrom(1, s) == NamesFrom(2, s)
  {
    assert SimpleMap[1].0 == "Open";
    SkipName(1, s, 'O');
  }

  lemma NameSkip2(s: string)
    requires 'H' !in s
    ensures NamesFrom(2, s) == NamesFrom(3, s)
  {
    assert SimpleMap[2].0 == "High";
    SkipName(2, s, 'H');
  }

  lemma NameSkip3(s: string)
    requires 'L' !in s
    ensures NamesFrom(3, s) == NamesFrom(4, s)
  {
    assert SimpleMap[3].0 == "Low";
    SkipName(3, s, 'L');
  }

  lemma NameSkip4(s: string)
    requires 'S' !in s
    ensures NamesFrom(4, s) == NamesFrom(5, s)
  {
    assert SimpleMap[4].0 == "Strength";
    SkipName(4, s, 'S');
  }

  lemma NameSkip5(s: string)
    requires 'V' !in s
    ensures NamesFrom(5, s) == NamesFrom(6, s)
  {
    assert SimpleMap[5].0 == "VWAP";
    SkipName(5, s, 'V');
  }

  lemma NameSkip6(s: string)
    requires 'S' !in s
    ensures NamesFrom(6, s) == NamesFrom(7, s)
  {
    assert SimpleMap[6].0 == "MaxSpan";
    SkipName(6, s, 'S');
  }

  lemma NameSkip7(s: string)
    requires 'B' !in s
    ensures NamesFrom(7, s) == NamesFrom(8, s)
  {
    assert SimpleMap[7].0 == "BuyQty_5m";
    SkipName(7, s, 'B');
  }

  lemma NameSkip8(s: string)
    requires 'S' !in s
    ensures NamesFrom(8, s) == NamesFrom(9, s)
  {
    assert SimpleMap[8].0 == "SellQty_5m";
    SkipName(8, s, 'S');
  }

  lemma NameSkip9(s: string)
    requires 'E' !in s
    ensures NamesFrom(9, s) == NamesFrom(10, s)
  {
    assert SimpleMap[9].0 == "EntryPrice";
    SkipName(9, s, 'E');
  }

  lemma NameSkip10(s: string)
    requires 'E' !in s
    ensures NamesFrom(10, s) == NamesFrom(11, s)
  {
    assert SimpleMap[10].0 == "Entry";
    SkipName(10, s, 'E');
  }

  lemma NameSkip11(s: string)
    requires 'P' !in s
    ensures NamesFrom(11, s) == NamesFrom(12, s)
  {
    assert SimpleMap[11].0 == "Peak";
    SkipName(11, s, 'P');
  }

  /** After the last simple name the text is final. */
  lemma NamesDone(s: string)
    ensures NamesFrom(|SimpleMap|, s) == s
  {
    assert SimpleMap[|SimpleMap|..] == [];
  }

  // ------------------------------------------------------------ EMA(20,-1)

  lemma EmaTail()
    ensures OffsetTail("EMA(20,-1)", 6) == Some(Tail(10, Some("-1")))
  {
    var s := "EMA(20,-1)";
    assert SpaceRun(s, 7) == 0;
    assert DigitRun(s, 9) == 0;
    assert DigitRun(s, 8) == 1;
    assert SignedRun(s, 7) == 2;
    assert s[7..9] == "-1";
  }

  lemma EmaShift()
    ensures ShiftCol(Col("ema_20"), Some("-1")) == "df['ema_20'].shift(1)"
  {
    assert "-1"[1..] == "1";
    assert DigitsValue("1") == 1;
    assert SignedValue("-1") == -1;
  }

  lemma EmaMatch()
    ensures MatchAt(Patterns[0], "EMA(20,-1)", 0) == Some(Match(10, "df['ema_20'].shift(1)"))
  {
    var s := "EMA(20,-1)";
    assert s[0..4] == "EMA(";
    assert DigitRun(s, 6) == 0;
    assert DigitRun(s, 4) == 2;
    EmaTail();
    EmaShift();
    assert s[4..6] == "20";
    assert "EMA" + "(" == "EMA(" && "ema" + "_" + "20" == "ema_20";
  }

  lemma EmaSub()
    ensures Sub(PatternMatcher(Patterns[0]), "EMA(20,-1)") == "df['ema_20'].shift(1)"
  {
    EmaMatch();
    StepReplaces(PatternMatcher(Patterns[0]), "EMA(20,-1)", 0);
  }

  lemma EmaFirst()
    ensures PatternsFrom(0, "EMA(20,-1)") == PatternsFrom(1, "df['ema_20'].shift(1)")
  {
    EmaSub();
    PatternStep(0, "EMA(20,-1)");
  }

  lemma EmaNoUpper()
    ensures NoUpper("df['ema_20'].shift(1)")
  {
  }

  /** `EMA(20,-1)` reads the 20-period EMA one candle back: `df['ema_20'].shift(1)`. */
  lemma EmaExample()
    ensures Converted("EMA(20,-1)") == "df['ema_20'].shift(1)"
  {
    EmaFirst();
    EmaNoUpper();
    NoUpperRest("df['ema_20'].shift(1)", 1);
  }

  // ------------------------------------------------------------ MA(Vol,20)

  lemma MaVolMatch()
    ensures MatchAt(Patterns[4], "MA(Vol,20)", 0) == Some(Match(10, "df['ma_vol_20']"))
  {
    var s := "MA(Vol,20)";
    assert s[0..7] == "MA(Vol,";
    assert DigitRun(s, 9) == 0;
    assert DigitRun(s, 7) == 2;
    assert s[7..9] == "20";
    assert s[9] == ')';
    assert "ma_vol" + "_" + "20" == "ma_vol_20";
    assert At("MA(Vol,", s, 0);
    assert |"MA(Vol,"| == 7;
    assert Col("ma_vol_20") == "df['ma_vol_20']";
    assert PeriodAt("MA(Vol,", "ma_vol", s, 0) == Some(Match(10, "df['ma_vol_20']"));
    assert Patterns[4] == Period("MA(Vol,", "ma_vol");
  }

  lemma MaVolSub()
    ensures Sub(PatternMatcher(Patterns[4]), "MA(Vol,20)") == "df['ma_vol_20']"
  {
    MaVolMatch();
    StepReplaces(PatternMatcher(Patterns[4]), "MA(Vol,20)", 0);
  }

  lemma MaVolStep()
    ensures PatternsFrom(4, "MA(Vol,20)") == PatternsFrom(5, "df['ma_vol_20']")
  {
    MaVolSub();
    PatternStep(4, "MA(Vol,20)");
  }

  lemma MaVolSkip0()
    ensures PatternsFrom(0, "MA(Vol,20)") == PatternsFrom(1, "MA(Vol,20)")
  {
    PatternSkip0("MA(Vol,20)");
  }

  lemma MaVolSkip1()
    ensures PatternsFrom(1, "MA(Vol,20)") == PatternsFrom(2, "MA(Vol,20)")
  {
    PatternSkip1("MA(Vol,20)");
  }

  lemma MaVolSkip2()
    ensures PatternsFrom(2, "MA(Vol,20)") == PatternsFrom(3, "MA(Vol,20)")
  {
    PatternSkip2("MA(Vol,20)");
  }

  lemma MaVolSkip3()
    ensures PatternsFrom(3, "MA(Vol,20)") == PatternsFrom(4, "MA(Vol,20)")
  {
    PatternSkip3("MA(Vol,20)");
  }

  lemma MaVolNoUpper()
    ensures NoUpper("df['ma_vol_20']")
  {
  }

  /** `MA(Vol,20)` becomes the 20-period volume average `df['ma_vol_20']`, untouched by the later `Vol(` pattern. */
  lemma MaVolExample()
    ensures Converted("MA(Vol,20)") == "df['ma_vol_20']"
  {
    MaVolSkip0();
    MaVolSkip1();
    MaVolSkip2();
    MaVolSkip3();
    MaVolStep();
    MaVolNoUpper();
    NoUpperRest("df['ma_vol_20']", 5);
  }

  // ------------------------------------------------------------ EntryPrice

  const EntryCol := "_get_col(df, 'entry_price', df['close'])"

  lemma EntryPricePatterns()
    ensures PatternsFrom(0, "EntryPrice") == "EntryPrice"
  {
    ParenFree("EntryPrice", 0);
  }

  lemma EntryPriceSkip0()
    ensures NamesFrom(0, "EntryPrice") == NamesFrom(1, "EntryPrice")
  {
    NameSkip0("EntryPrice");
  }

  lemma EntryPriceSkip1()
    ensures NamesFrom(1, "EntryPrice") == NamesFrom(2, "EntryPrice")
  {
    NameSkip1("EntryPrice");
  }

  lemma EntryPriceSkip2()
    ensures NamesFrom(2, "EntryPrice") == NamesFrom(3, "EntryPrice")
  {
    NameSkip2("EntryPrice");
  }

  lemma EntryPriceSkip3()
    ensures NamesFrom(3, "EntryPrice") == NamesFrom(4, "EntryPrice")
  {
    NameSkip3("EntryPrice");
  }

  lemma EntryPriceSkip4()
    ensures NamesFrom(4, "EntryPrice") == NamesFrom(5, "EntryPrice")
  {
    NameSkip4("EntryPrice");
  }

  lemma EntryPriceSkip5()
    ensures NamesFrom(5, "EntryPrice") == NamesFrom(6, "EntryPrice")
  {
    NameSkip5("EntryPrice");
  }

  lemma EntryPriceSkip6()
    ensures NamesFrom(6, "EntryPrice") == NamesFrom(7, "EntryPrice")
  {
    NameSkip6("EntryPrice");
  }

  lemma EntryPriceSkip7()
    ensures NamesFrom(7, "EntryPrice") == NamesFrom(8, "EntryPrice")
  {
    NameSkip7("EntryPrice");
  }

  lemma EntryPriceSkip8()
    ensures NamesFrom(8, "EntryPrice") == NamesFrom(9, "EntryPrice")
  {
    NameSkip8("EntryPrice");
  }

  lemma EntryPriceSub()
    ensures Sub(WordMatcher(SimpleMap[9].0, SimpleMap[9].1), "EntryPrice") == EntryCol
  {
    assert SimpleMap[9] == ("EntryPrice", EntryCol);
    assert BoundedAt("EntryPrice", "EntryPrice", 0);
    StepReplaces(WordMatcher("EntryPrice", EntryCol), "EntryPrice", 0);
  }

  lemma EntryPriceStep()
    ensures NamesFrom(9, "EntryPrice") == NamesFrom(10, EntryCol)
  {
    EntryPriceSub();
    NameStep(9, "EntryPrice");
  }

  lemma EntryColNoUpper()
    ensures NoUpper(EntryCol)
  {
  }

  lemma EntryColRest()
    ensures Extremes(NamesFrom(10, EntryCol)) == EntryCol
  {
    EntryColNoUpper();
    NoUpperNames(EntryCol, 10);
    NoUpperExtremes(EntryCol);
  }

  lemma EntryPriceNames()
    ensures NamesFrom(0, "EntryPrice") == NamesFrom(9, "EntryPrice")
  {
    EntryPriceSkip0();
    EntryPriceSkip1();
    EntryPriceSkip2();
    EntryPriceSkip3();
    EntryPriceSkip4();
    EntryPriceSkip5();
    EntryPriceSkip6();
    EntryPriceSkip7();
    EntryPriceSkip8();
  }

  /**
   * `EntryPrice` is read through `_get_col` with the close as fallback, and
   * the later `\bEntry\b` pass does not touch it a second time.
   */
  lemma EntryPriceExample()
    ensures Converted("EntryPrice") == "_get_col(df, 'entry_price', df['close'])"
  {
    EntryPricePatterns();
    EntryPriceNames();
    EntryPriceStep();
    EntryColRest();
  }

  // -------------------------------------------------------------- MaxHigh5

  /** `High` inside `MaxHigh5` is not a word of its own: `x` before it is a word character. */
  lemma HighInsideWord()
    ensures Sub(WordMatcher("High", "df['high']"), "MaxHigh5") == "MaxHigh5"
  {
    var s := "MaxHigh5";
    forall i | 0 <= i < |s| ensures !Proper(WordMatcher("High", "df['high']")(s, i), s, i) {
      if BoundedAt("High", s, i) {
        assert false;
      }
    }
    SubFromNoMatch(WordMatcher("High", "df['high']"), s, 0);
  }

  lemma MaxHighSkip0()
    ensures NamesFrom(0, "MaxHigh5") == NamesFrom(1, "MaxHigh5")
  {
    NameSkip0("MaxHigh5");
  }

  lemma MaxHighSkip1()
    ensures NamesFrom(1, "MaxHigh5") == NamesFrom(2, "MaxHigh5")
  {
    NameSkip1("MaxHigh5");
  }

  lemma MaxHighSkip3()
    ensures NamesFrom(3, "MaxHigh5") == NamesFrom(4, "MaxHigh5")
  {
    NameSkip3("MaxHigh5");
  }

  lemma MaxHighSkip4()
    ensures NamesFrom(4, "MaxHigh5") == NamesFrom(5, "MaxHigh5")
  {
    NameSkip4("MaxHigh5");
  }

  lemma MaxHighSkip5()
    ensures NamesFrom(5, "MaxHigh5") == NamesFrom(6, "MaxHigh5")
  {
    NameSkip5("MaxHigh5");
  }

  lemma MaxHighSkip6()
    ensures NamesFrom(6, "MaxHigh5") == NamesFrom(7, "MaxHigh5")
  {
    NameSkip6("MaxHigh5");
  }

  lemma MaxHighSkip7()
    ensures NamesFrom(7, "MaxHigh5") == NamesFrom(8, "MaxHigh5")
  {
    NameSkip7("MaxHigh5");
  }

  lemma MaxHighSkip8()
    ensures NamesFrom(8, "MaxHigh5") == NamesFrom(9, "MaxHigh5")
  {
    NameSkip8("MaxHigh5");
  }

  lemma MaxHighSkip9()
    ensures NamesFrom(9, "MaxHigh5") == NamesFrom(10, "MaxHigh5")
  {
    NameSkip9("MaxHigh5");
  }

  lemma MaxHighSkip10()
    ensures NamesFrom(10, "MaxHigh5") == NamesFrom(11, "MaxHigh5")
  {
    NameSkip10("MaxHigh5");
  }

  lemma MaxHighSkip11()
    ensures NamesFrom(11, "MaxHigh5") == NamesFrom(12, "MaxHigh5")
  {
    NameSkip11("MaxHigh5");
  }

  lemma MaxHighSkipsHigh()
    ensures NamesFrom(2, "MaxHigh5") == NamesFrom(3, "MaxHigh5")
  {
    assert SimpleMap[2] == ("High", "df['high']");
    HighInsideWord();
    NameStep(2, "MaxHigh5");
  }

  lemma MaxHighNames()
    ensures NamesFrom(0, "MaxHigh5") == "MaxHigh5"
  {
    MaxHighSkip0();
    MaxHighSkip1();
    MaxHighSkipsHigh();
    MaxHighSkip3();
    MaxHighSkip4();
    MaxHighSkip5();
    MaxHighSkip6();
    MaxHighSkip7();
    MaxHighSkip8();
    MaxHighSkip9();
    MaxHighSkip10();
    MaxHighSkip11();
    NamesDone("MaxHigh5");
  }

  lemma MaxHighPatterns()
    ensures PatternsFrom(0, "MaxHigh5") == "MaxHigh5"
  {
    ParenFree("MaxHigh5", 0);
  }

  lemma MaxHighMatch()
    ensures Sub(PatternMatcher(MaxHighPattern), "MaxHigh5") == "df['max_high_5']"
  {
    var s := "MaxHigh5";
    assert At("MaxHigh", s, 0);
    assert DigitRun(s, 8) == 0;
    assert DigitRun(s, 7) == 1;
    assert s[7..8] == "5";
    assert "max_high" + "_" + "5" == "max_high_5";
    assert |"MaxHigh"| == 7;
    assert Col("max_high_5") == "df['max_high_5']";
    assert SuffixAt("MaxHigh", "max_high", s, 0) == Some(Match(8, "df['max_high_5']"));
    StepReplaces(PatternMatcher(MaxHighPattern), s, 0);
  }

  lemma MaxHighNoUpper()
    ensures NoUpper("df['max_high_5']")
  {
  }

  lemma MaxHighExtremes()
    ensures Extremes("MaxHigh5") == "df['max_high_5']"
  {
    MaxHighMatch();
    MaxHighNoUpper();
    PatternAbsent(MinLowPattern, "df['max_high_5']", 'M');
  }

  /** `MaxHigh5` becomes the rolling five-candle high `df['max_high_5']`; the `\bHigh\b` pass leaves it alone first. */
  lemma MaxHighExample()
    ensures Converted("MaxHigh5") == "df['max_high_5']"
  {
    MaxHighPatterns();
    MaxHighNames();
    MaxHighExtremes();
  }
}

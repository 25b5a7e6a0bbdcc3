/** `apps/tron/layout.py`: the formatters that fit transaction fields to the
    display, one prompt builder per contract kind, and the per-parameter
    confirmation loop of a proposal. A builder returns the prompt as a value;
    showing it and waiting for the answer is `Confirm.RequireConfirm`. */
module Layout {
  import opened Utils
  import opened Strings
  import opened Ui
  import opened Messages
  import opened Confirm
  import opened Wire

  // ---------------------------------------------------------------------
  // Formatters

  /** `split_address`: lines of 16 characters, the last possibly shorter. */
  function SplitAddress(address: string): (lines: seq<string>)
    ensures Flatten(lines) == address
    ensures forall i :: 0 <= i < |lines| ==> 0 < |lines[i]| <= 16
    ensures forall i :: 0 <= i < |lines| - 1 ==> |lines[i]| == 16
  {
    Chunks(address, 16)
  }

  /** `split_text`: lines of 18 characters, the last possibly shorter. */
  function SplitText(text: string): (lines: seq<string>)
    ensures Flatten(lines) == text
    ensures forall i :: 0 <= i < |lines| ==> 0 < |lines[i]| <= 18
    ensures forall i :: 0 <= i < |lines| - 1 ==> |lines[i]| == 18
  {
    Chunks(text, 18)
  }

  /** A 32-character address takes exactly two lines, its two halves. */
  lemma SplitAddressOf32(address: string)
    requires |address| == 32
    ensures SplitAddress(address) == [address[..16], address[16..]]
  {
    assert Chunks(address[16..], 16) == [address[16..]];
  }

  /** `format_amount_token`: the decimal integer followed by one space. */
  function FormatAmountToken(value: int): (r: string)
    ensures |r| > 1 && r[|r| - 1] == ' '
    ensures IsIntText(r[..|r| - 1]) && ParseInt(r[..|r| - 1]) == value
  {
    IntToStringRoundTrip(value);
    var r := IntToString(value) + " ";
    assert r[..|r| - 1] == IntToString(value);
    r
  }

  function Abs(x: int): nat
  {
    if x < 0 then -x else x
  }

  /** The digits before and after the decimal point of `value / 10^6`. The
      fraction keeps at least one digit and has no trailing zero beyond it. */
  function TrxDigits(value: int): (parts: (string, string))
    ensures IsNatText(parts.0) && AllDigits(parts.1)
    ensures 0 < |parts.1| <= 6
    ensures |parts.1| > 1 ==> parts.1[|parts.1| - 1] != '0'
    ensures ParseNat(parts.0) * 1000000 + ParseNat(parts.1) * Pow10(6 - |parts.1|) == Abs(value)
  {
    var whole := NatToString(Abs(value) / 1000000);
    var fraction := TrimZeros(Fixed(Abs(value) % 1000000, 6));
    ParseNatToString(Abs(value) / 1000000);
    ParseFixed(Abs(value) % 1000000, 6);
    ParseTrimZeros(Fixed(Abs(value) % 1000000, 6));
    (whole, fraction)
  }

  /** `format_amount_trx`: `value` in units of 10^-6 TRX, shown in TRX as a
      decimal with at least one fractional digit, then " TRX". */
  function FormatAmountTrx(value: int): (r: string)
    ensures |r| > 4 && r[|r| - 4..] == " TRX"
  {
    var digits := TrxDigits(value);
    (if value < 0 then "-" else "") + digits.0 + "." + digits.1 + " TRX"
  }

  /** The amount text reads back as the amount: its digits give `value / 10^6`
      exactly. */
  lemma FormatAmountTrxReads(value: int)
    ensures exists whole, fraction :: ShowsTrx(FormatAmountTrx(value), value, whole, fraction)
  {
    var digits := TrxDigits(value);
    assert ShowsTrx(FormatAmountTrx(value), value, digits.0, digits.1);
  }

  /** `r` shows `value / 10^6` TRX with the digits `whole` before the point
      and `fraction` after it: a minus exactly for a negative amount, no
      leading zero, one to six fractional digits. */
  predicate ShowsTrx(r: string, value: int, whole: string, fraction: string)
  {
    && IsNatText(whole) && AllDigits(fraction) && 0 < |fraction| <= 6
    && r == (if value < 0 then "-" else "") + whole + "." + fraction + " TRX"
    && ParseNat(whole) * 1000000 + ParseNat(fraction) * Pow10(6 - |fraction|) == Abs(value)
  }

  lemma FixedZeros()
    ensures Fixed(0, 6) == "000000" && TrimZeros("000000") == "0"
  {
    assert Pow10(6) == 1000000;
    assert TrimZeros("00") == "0";
    assert TrimZeros("000") == "0";
    assert TrimZeros("0000") == "0";
    assert TrimZeros("00000") == "0";
  }

  lemma FixedFive()
    ensures Fixed(500000, 6) == "500000" && TrimZeros("500000") == "5"
  {
    assert Pow10(6) == 1000000;
    assert Fixed(5, 1) == "5";
    assert Fixed(50, 2) == "50";
    assert Fixed(500, 3) == "500";
    assert Fixed(5000, 4) == "5000";
    assert Fixed(50000, 5) == "50000";
    assert TrimZeros("50") == "5";
    assert TrimZeros("500") == "5";
    assert TrimZeros("5000") == "5";
    assert TrimZeros("50000") == "5";
  }

  lemma TrxDigitsExamples()
    ensures TrxDigits(1000000) == ("1", "0")
    ensures TrxDigits(2500000) == ("2", "5")
  {
    FixedZeros();
    FixedFive();
    assert Abs(1000000) / 1000000 == 1 && Abs(1000000) % 1000000 == 0;
    assert Abs(2500000) / 1000000 == 2 && Abs(2500000) % 1000000 == 500000;
    assert NatToString(1) == "1" && NatToString(2) == "2";
  }

  /** One TRX shows as "1.0 TRX" and two and a half as "2.5 TRX". */
  lemma FormatAmountTrxExamples()
    ensures FormatAmountTrx(1000000) == "1.0 TRX"
    ensures FormatAmountTrx(2500000) == "2.5 TRX"
  {
    TrxDigitsExamples();
    PositiveAmountText(1000000, "1", "0");
    PositiveAmountText(2500000, "2", "5");
  }

  lemma PositiveAmountText(value: int, whole: string, fraction: string)
    requires value >= 0 && TrxDigits(value) == (whole, fraction)
    ensures FormatAmountTrx(value) == whole + "." + fraction + " TRX"
  {
  }

  /** The table of `get_parameter_text`. */
  const ParameterNames: map<int, string> := map[
    0 := "Maintenance time interval",
    1 := "Account upgrade cost",
    2 := "Create account fee",
    3 := "Transaction fee",
    4 := "Asset issue fee",
    5 := "Witness pay per block",
    6 := "Witness standby allowance",
    7 := "Create new account fee in system contract",
    8 := "Create new account bandwidth rate",
    9 := "Allow creation of contracts",
    10 := "Remove the power of GRs",
    11 := "Energy fee",
    12 := "Exchange create fee",
    13 := "Max CPU time of one TX"]

  const InvalidParameter := "Invalid parameter"

  /** `get_parameter_text`: the name of a proposal parameter code. */
  function GetParameterText(code: int): string
  {
    if code in ParameterNames then ParameterNames[code] else InvalidParameter
  }

  /** The lookup is total: codes 0 to 13 have their own names and every
      other code reads "Invalid parameter". */
  lemma ParameterTextTotal(code: int)
    ensures 0 <= code <= 13 <==> GetParameterText(code) != InvalidParameter
    ensures 0 <= code <= 13 ==> GetParameterText(code) == ParameterNames[code]
  {
  }

  /** No two codes share a name: the length and the first letter of each
      name already tell them apart. */
  lemma ParameterNamesDistinct(a: int, b: int)
    requires 0 <= a <= 13 && 0 <= b <= 13 && a != b
    ensures GetParameterText(a) != GetParameterText(b)
  {
    var na, nb := ParameterNames[a], ParameterNames[b];
    assert |na| != |nb| || na[0] != nb[0];
  }

  lemma ParameterTextExamples()
    ensures GetParameterText(9) == "Allow creation of contracts"
    ensures GetParameterText(99) == "Invalid parameter"
    ensures GetParameterText(-1) == "Invalid parameter"
  {
  }

  /** Python's `"{}".format(b)` for a bool. */
  function BoolText(b: bool): string
  {
    if b then "True" else "False"
  }

  // ---------------------------------------------------------------------
  // Prompt builders, one per `require_confirm_*`

  /** Appending `s` chunked at `width` in `style` to `t` lays `s` out after
      the lines `t` already had. */
  lemma AddWraps(t: Text, style: Style, s: string, width: nat)
    requires width > 0
    ensures t.Add(style, Chunks(s, width)).lines[..|t.lines|] == t.lines
    ensures Wraps(t.Add(style, Chunks(s, width)).lines[|t.lines|..], style, s, width)
  {
    var u := t.Add(style, Chunks(s, width));
    assert u.lines[|t.lines|..] == Styled(style, Chunks(s, width));
    WrapsChunks(style, s, width);
  }

  /** `require_confirm_data`: the attached data, 18 characters a line. */
  function DataPrompt(data: string): (t: Text)
    ensures t.title == "Data attached" && t.icon == IconConfirm
    ensures Wraps(t.lines, Normal, data, 18)
  {
    var t := NewText("Data attached", IconConfirm).Add(Normal, SplitText(data));
    AddWraps(NewText("Data attached", IconConfirm), Normal, data, 18);
    t
  }

  /** `require_confirm_tx`: the TRX amount in bold, then the destination,
      prefixed "To: ", 16 characters a line in mono. */
  function TxPrompt(dest: string, value: int): (t: Text)
    ensures t.title == "Confirm sending" && t.icon == IconSend
    ensures |t.lines| > 0 && t.lines[0] == Line(Bold, FormatAmountTrx(value))
    ensures Wraps(t.lines[1..], Mono, "To: " + dest, 16)
  {
    var head := NewText("Confirm sending", IconSend).Add(Bold, [FormatAmountTrx(value)]);
    AddWraps(head, Mono, "To: " + dest, 16);
    head.Add(Mono, SplitAddress("To: " + dest))
  }

  /** `require_confirm_tx_asset`: the token amount and name in bold, then the
      destination as for a TRX transfer. */
  function TxAssetPrompt(token: string, dest: string, value: int): (t: Text)
    ensures t.title == "Confirm sending" && t.icon == IconSend
    ensures |t.lines| > 0 && t.lines[0] == Line(Bold, FormatAmountToken(value) + token)
    ensures Wraps(t.lines[1..], Mono, "To: " + dest, 16)
  {
    var head := NewText("Confirm sending", IconSend).Add(Bold, [FormatAmountToken(value) + token]);
    AddWraps(head, Mono, "To: " + dest, 16);
    head.Add(Mono, SplitAddress("To: " + dest))
  }

  /** `require_confirm_vote_witness`: the number of candidates and the total
      of their votes. */
  function VoteWitnessPrompt(votesAddr: int, votesTotal: int): (t: Text)
    ensures t.title == "Confirm transaction" && t.icon == IconSend
    ensures t.lines == [Line(Bold, "SR Voting"),
                        Line(Normal, "N. Candidates: " + IntToString(votesAddr)),
                        Line(Normal, "Total Votes: " + IntToString(votesTotal))]
  {
    NewText("Confirm transaction", IconSend)
      .Add(Bold, ["SR Voting"])
      .Add(Normal, ["N. Candidates: " + IntToString(votesAddr)])
      .Add(Normal, ["Total Votes: " + IntToString(votesTotal)])
  }

  /** `require_confirm_witness_contract`: the URL, 18 characters a line. */
  function WitnessContractPrompt(url: string): (t: Text)
    ensures t.title == "Confirm transaction" && t.icon == IconSend
    ensures |t.lines| > 0 && t.lines[0] == Line(Bold, "Apply for SR")
    ensures Wraps(t.lines[1..], Mono, "URL: " + url, 18)
  {
    var head := NewText("Confirm transaction", IconSend).Add(Bold, ["Apply for SR"]);
    AddWraps(head, Mono, "URL: " + url, 18);
    head.Add(Mono, SplitText("URL: " + url))
  }

  /** `require_confirm_asset_issue`: token name, supply with abbreviation,
      and the TRX-to-token ratio. */
  function AssetIssuePrompt(tokenName: string, tokenAbbr: string, supply: int,
                            trxNum: int, num: int): (t: Text)
    ensures t.title == "Confirm transaction" && t.icon == IconSend
    ensures t.lines == [Line(Bold, "Create Token"),
                        Line(Normal, tokenName),
                        Line(Normal, IntToString(supply) + " " + tokenAbbr),
                        Line(Mono, "Ratio " + IntToString(trxNum) + ":" + IntToString(num))]
  {
    NewText("Confirm transaction", IconSend)
      .Add(Bold, ["Create Token"])
      .Add(Normal, [tokenName])
      .Add(Normal, [IntToString(supply) + " " + tokenAbbr])
      .Add(Mono, ["Ratio " + IntToString(trxNum) + ":" + IntToString(num)])
  }

  /** `require_confirm_witness_update`: the owner address on one line, then
      the new URL 16 characters a line. */
  function WitnessUpdatePrompt(ownerAddress: string, updateUrl: string): (t: Text)
    ensures t.title == "Confirm transaction" && t.icon == IconSend
    ensures |t.lines| > 1 && t.lines[..2] == [Line(Bold, "Update Witness"), Line(Normal, ownerAddress)]
    ensures Wraps(t.lines[2..], Mono, "URL: " + updateUrl, 16)
  {
    var head := NewText("Confirm transaction", IconSend)
      .Add(Bold, ["Update Witness"])
      .Add(Normal, [ownerAddress]);
    AddWraps(head, Mono, "URL: " + updateUrl, 16);
    head.Add(Mono, SplitAddress("URL: " + updateUrl))
  }

  /** `require_confirm_participate_asset`: the token and the raw amount. */
  function ParticipateAssetPrompt(token: string, value: int): (t: Text)
    ensures t.title == "Confirm transaction" && t.icon == IconSend
    ensures t.lines == [Line(Bold, "Token Participate:"), Line(Mono, token),
                        Line(Bold, "Amount:"), Line(Mono, FormatAmountToken(value))]
  {
    NewText("Confirm transaction", IconSend)
      .Add(Bold, ["Token Participate:"])
      .Add(Mono, [token])
      .Add(Bold, ["Amount:"])
      .Add(Mono, [FormatAmountToken(value)])
  }

  /** `require_confirm_account_update`: the new account name. */
  function AccountUpdatePrompt(accountName: string): (t: Text)
    ensures t.title == "Confirm transaction" && t.icon == IconSend
    ensures t.lines == [Line(Bold, "Account Update"), Line(Mono, "Name:"), Line(Mono, accountName)]
  {
    NewText("Confirm transaction", IconSend)
      .Add(Bold, ["Account Update"])
      .Add(Mono, ["Name:"])
      .Add(Mono, [accountName])
  }

  /** `require_confirm_freeze_balance`: the TRX amount and the duration in days. */
  function FreezeBalancePrompt(value: int, days: int): (t: Text)
    ensures t.title == "Confirm transaction" && t.icon == IconSend
    ensures t.lines == [Line(Bold, "Freeze Balance"), Line(Mono, "Amount:"),
                        Line(Bold, FormatAmountTrx(value)), Line(Mono, "Days: " + IntToString(days))]
  {
    NewText("Confirm transaction", IconSend)
      .Add(Bold, ["Freeze Balance"])
      .Add(Mono, ["Amount:"])
      .Add(Bold, [FormatAmountTrx(value)])
      .Add(Mono, ["Days: " + IntToString(days)])
  }

  const UnfreezeBalanceNotice := "Total frozen balance will be unfreeze."
  const WithdrawBalanceNotice := "Total allowance withdraw to your account."
  const UnfreezeAssetNotice := "Unfreeze expired frozen assets."

  /** A prompt that takes no transaction field: a bold heading and a fixed
      notice, 18 characters a line in mono. */
  function NoticePrompt(heading: string, notice: string): (t: Text)
    ensures t.title == "Confirm transaction" && t.icon == IconSend
    ensures |t.lines| > 0 && t.lines[0] == Line(Bold, heading)
    ensures Wraps(t.lines[1..], Mono, notice, 18)
  {
    var head := NewText("Confirm transaction", IconSend).Add(Bold, [heading]);
    AddWraps(head, Mono, notice, 18);
    head.Add(Mono, SplitText(notice))
  }

  /** `require_confirm_unfreeze_balance`. */
  function UnfreezeBalancePrompt(): (t: Text)
    ensures t.title == "Confirm transaction" && t.icon == IconSend
    ensures |t.lines| > 0 && t.lines[0] == Line(Bold, "Unfreeze Balance")
    ensures Wraps(t.lines[1..], Mono, UnfreezeBalanceNotice, 18)
  {
    NoticePrompt("Unfreeze Balance", UnfreezeBalanceNotice)
  }

  /** `require_confirm_withdraw_balance`. */
  function WithdrawBalancePrompt(): (t: Text)
    ensures t.title == "Confirm transaction" && t.icon == IconSend
    ensures |t.lines| > 0 && t.lines[0] == Line(Bold, "Withdraw Balance")
    ensures Wraps(t.lines[1..], Mono, WithdrawBalanceNotice, 18)
  {
    NoticePrompt("Withdraw Balance", WithdrawBalanceNotice)
  }

  /** `require_confirm_unfreeze_asset`. */
  function UnfreezeAssetPrompt(): (t: Text)
    ensures t.title == "Confirm transaction" && t.icon == IconSend
    ensures |t.lines| > 0 && t.lines[0] == Line(Bold, "Unfreeze Assets")
    ensures Wraps(t.lines[1..], Mono, UnfreezeAssetNotice, 18)
  {
    NoticePrompt("Unfreeze Assets", UnfreezeAssetNotice)
  }

  /** `require_confirm_update_asset`: the description 18 characters a line,
      then the URL on one line. */
  function UpdateAssetPrompt(description: string, url: string): (t: Text)
    ensures t.title == "Confirm transaction" && t.icon == IconConfirm
    ensures |t.lines| > 1 && t.lines[0] == Line(Bold, "Update Token")
    ensures t.lines[|t.lines| - 1] == Line(Mono, url)
    ensures Wraps(t.lines[1..|t.lines| - 1], Mono, description, 18)
  {
    var head := NewText("Confirm transaction", IconConfirm).Add(Bold, ["Update Token"]);
    AddWraps(head, Mono, description, 18);
    var body := head.Add(Mono, SplitText(description));
    assert body.Add(Mono, [url]).lines[1..|body.lines|] == body.lines[1..];
    body.Add(Mono, [url])
  }

  /** The two texts of a proposal-parameter prompt. */
  function ParameterLabel(parameter: ProposalParameter): string
  {
    "Parameter: " + GetParameterText(parameter.key)
  }

  function ParameterValue(parameter: ProposalParameter): string
  {
    "Value: " + IntToString(parameter.value)
  }

  /** Lines of `normal` items followed by lines of `mono` items: each style
      shows its own items, nothing is bold, and no normal line follows a
      mono one. */
  lemma NormalThenMono(normal: seq<string>, mono: seq<string>)
    ensures var lines := Styled(Normal, normal) + Styled(Mono, mono);
            && Content(lines, Normal) == Flatten(normal)
            && Content(lines, Mono) == Flatten(mono)
            && Content(lines, Bold) == ""
            && forall i, j :: 0 <= i < j < |lines| && lines[i].style == Mono ==> lines[j].style == Mono
  {
    MonoLast(normal, mono);
    var a, b := Styled(Normal, normal), Styled(Mono, mono);
    ContentAppend(a, b, Normal);
    ContentAppend(a, b, Mono);
    ContentAppend(a, b, Bold);
    ContentStyled(Normal, normal, Normal);
    ContentStyled(Normal, normal, Mono);
    ContentStyled(Normal, normal, Bold);
    ContentStyled(Mono, mono, Normal);
    ContentStyled(Mono, mono, Mono);
    ContentStyled(Mono, mono, Bold);
  }

  lemma MonoLast(normal: seq<string>, mono: seq<string>)
    ensures var lines := Styled(Normal, normal) + Styled(Mono, mono);
            forall i, j :: 0 <= i < j < |lines| && lines[i].style == Mono ==> lines[j].style == Mono
  {
    var lines := Styled(Normal, normal) + Styled(Mono, mono);
    forall i, j | 0 <= i < j < |lines| && lines[i].style == Mono
      ensures lines[j].style == Mono
    {
      assert i >= |normal|;
    }
  }

  /** A text of `name` in normal lines followed by `value` in mono lines,
      both split at 18 characters. */
  lemma LabelThenValue(t: Text, name: string, value: string)
    requires t.lines == []
    ensures var u := t.Add(Normal, SplitText(name)).Add(Mono, SplitText(value));
            && Content(u.lines, Normal) == name
            && Content(u.lines, Mono) == value
            && Content(u.lines, Bold) == ""
            && (forall i :: 0 <= i < |u.lines| ==> 0 < |u.lines[i].text| <= 18)
            && (forall i, j :: 0 <= i < j < |u.lines| && u.lines[i].style == Mono ==>
                  u.lines[j].style == Mono)
            && exists k :: 0 <= k <= |u.lines| && Wraps(u.lines[..k], Normal, name, 18)
                                               && Wraps(u.lines[k..], Mono, value, 18)
  {
    var names, values := SplitText(name), SplitText(value);
    var a := t.Add(Normal, names);
    assert a.lines == [] + Styled(Normal, names);
    assert [] + Styled(Normal, names) == Styled(Normal, names);
    assert a.Add(Mono, values).lines == Styled(Normal, names) + Styled(Mono, values);
    LabelLines(name, value);
  }

  /** The lines of `LabelThenValue` on their own. */
  lemma LabelLines(name: string, value: string)
    ensures var lines := Styled(Normal, SplitText(name)) + Styled(Mono, SplitText(value));
            && Content(lines, Normal) == name
            && Content(lines, Mono) == value
            && Content(lines, Bold) == ""
            && (forall i :: 0 <= i < |lines| ==> 0 < |lines[i].text| <= 18)
            && (forall i, j :: 0 <= i < j < |lines| && lines[i].style == Mono ==>
                  lines[j].style == Mono)
            && exists k :: 0 <= k <= |lines| && Wraps(lines[..k], Normal, name, 18)
                                             && Wraps(lines[k..], Mono, value, 18)
  {
    var names, values := SplitText(name), SplitText(value);
    NormalThenMono(names, values);
    LinesWithin(names, values, 18);
    SplitWraps(Styled(Normal, names), Styled(Mono, values), name, value);
  }

  /** Normal lines cut from `name` followed by mono lines cut from `value`
      split back into the two wrappings. */
  lemma SplitWraps(normal: seq<Line>, mono: seq<Line>, name: string, value: string)
    requires normal == Styled(Normal, SplitText(name)) && mono == Styled(Mono, SplitText(value))
    ensures exists k :: 0 <= k <= |normal + mono| && Wraps((normal + mono)[..k], Normal, name, 18)
                                                  && Wraps((normal + mono)[k..], Mono, value, 18)
  {
    WrapsChunks(Normal, name, 18);
    WrapsChunks(Mono, value, 18);
    assert (normal + mono)[..|normal|] == normal;
    assert (normal + mono)[|normal|..] == mono;
  }

  /** Items of at most `width` characters make lines of at most `width`. */
  lemma LinesWithin(normal: seq<string>, mono: seq<string>, width: nat)
    requires forall i :: 0 <= i < |normal| ==> 0 < |normal[i]| <= width
    requires forall i :: 0 <= i < |mono| ==> 0 < |mono[i]| <= width
    ensures var lines := Styled(Normal, normal) + Styled(Mono, mono);
            forall i :: 0 <= i < |lines| ==> 0 < |lines[i].text| <= width
  {
    var lines := Styled(Normal, normal) + Styled(Mono, mono);
    forall i | 0 <= i < |lines|
      ensures 0 < |lines[i].text| <= width
    {
      if i < |normal| {
        assert lines[i] == Line(Normal, normal[i]);
      } else {
        assert lines[i] == Line(Mono, mono[i - |normal|]);
      }
    }
  }

  /** The body of one iteration of `require_confirm_proposal_create_contract`:
      the parameter's name in normal lines, then its value in mono lines,
      both cut into lines of 18 characters, and nothing in bold. */
  function ProposalParameterPrompt(parameter: ProposalParameter): (t: Text)
    ensures t.title == "Confirm proposal" && t.icon == IconConfirm
    ensures Content(t.lines, Normal) == ParameterLabel(parameter)
    ensures Content(t.lines, Mono) == ParameterValue(parameter)
    ensures Content(t.lines, Bold) == ""
    ensures forall i :: 0 <= i < |t.lines| ==> 0 < |t.lines[i].text| <= 18
    ensures forall i, j :: 0 <= i < j < |t.lines| && t.lines[i].style == Mono ==>
              t.lines[j].style == Mono
    ensures exists k :: 0 <= k <= |t.lines| && Wraps(t.lines[..k], Normal, ParameterLabel(parameter), 18)
                                            && Wraps(t.lines[k..], Mono, ParameterValue(parameter), 18)
  {
    var head := NewText("Confirm proposal", IconConfirm);
    LabelThenValue(head, ParameterLabel(parameter), ParameterValue(parameter));
    head.Add(Normal, SplitText(ParameterLabel(parameter))).Add(Mono, SplitText(ParameterValue(parameter)))
  }

  /** One prompt per parameter, in list order. */
  function ProposalPrompts(parameters: seq<ProposalParameter>): seq<Text>
  {
    seq(|parameters|, i requires 0 <= i < |parameters| => ProposalParameterPrompt(parameters[i]))
  }

  /** `require_confirm_proposal_create_contract`: asks about each parameter
      in turn; a rejection raises out of the loop, so no later parameter is
      shown. The whole loop is one run of the per-parameter prompts. */
  method RequireConfirmProposalCreate(s: Session, parameters: seq<ProposalParameter>)
    returns (s': Session, out: Outcome)
    ensures (s', out) == ConfirmAll(s, ProposalPrompts(parameters))
  {
    ghost var prompts := ProposalPrompts(parameters);
    s', out := s, Pass;
    var idx := 0;
    while idx < |parameters|
      invariant idx <= |parameters|
      invariant AcceptsFirst(s.answers, idx)
      invariant s' == Session(s.answers[idx..], s.log + Shows(prompts[..idx]))
    {
      var text := ProposalParameterPrompt(parameters[idx]);
      assert text == prompts[idx];
      RequireConfirmStep(s, prompts, idx, s');
      var r := RequireConfirm(s', text);
      if r.1.Fail? {
        s', out := r.0, r.1;
        return;
      }
      s' := r.0;
      idx := idx + 1;
    }
    ConfirmAllAccepted(s, prompts);
    assert prompts[..idx] == prompts;
  }

  /** `require_confirm_proposal_approve_contract`: the proposal id and
      whether approval is added ("True") or revoked ("False"). */
  function ProposalApprovePrompt(proposalId: int, isAddApproval: bool): (t: Text)
    ensures t.title == "Confirm transaction" && t.icon == IconConfirm
    ensures t.lines == [Line(Bold, "Proposal Approval"),
                        Line(Mono, "ID: " + IntToString(proposalId)),
                        Line(Mono, "Approve: " + BoolText(isAddApproval))]
  {
    NewText("Confirm transaction", IconConfirm)
      .Add(Bold, ["Proposal Approval"])
      .Add(Mono, ["ID: " + IntToString(proposalId)])
      .Add(Mono, ["Approve: " + BoolText(isAddApproval)])
  }

  /** `require_confirm_proposal_delete_contract`: the proposal id. */
  function ProposalDeletePrompt(proposalId: int): (t: Text)
    ensures t.title == "Confirm transaction" && t.icon == IconConfirm
    ensures t.lines == [Line(Bold, "Proposal Delete"), Line(Mono, "ID: " + IntToString(proposalId))]
  {
    NewText("Confirm transaction", IconConfirm)
      .Add(Bold, ["Proposal Delete"])
      .Add(Mono, ["ID: " + IntToString(proposalId)])
  }
}

/**
  The result view (Frontend/src/components/PredictionResult.jsx, and the same
  tests inlined in the result panel of App.jsx): the normal/tumor branch, its
  colour and texts, and the processing-time line.
 */
module PredictionResult {
  import opened Js

  /** What the view reads of a `/predict` response: the category and `processing_time`. */
  datatype Prediction = Prediction(category: string, processingTime: JsValue)

  /**
    The view reads `prediction.prediction` and calls `toLowerCase` on it; a
    response without a string there makes that call throw (`None`).
   */
  function Decode(v: JsValue): (p: Option<Prediction>)
    ensures p.Some? <==> v.Obj? && "prediction" in v.fields && v.fields["prediction"].Str?
    ensures p.Some? ==> p.value.category == v.fields["prediction"].s
    ensures p.Some? ==> p.value.processingTime == Get(v, "processing_time")
  {
    if v.Obj? && "prediction" in v.fields && v.fields["prediction"].Str? then
      Some(Prediction(v.fields["prediction"].s, Get(v, "processing_time")))
    else
      None
  }

  /** `prediction.prediction.toLowerCase() === 'normal'`: only six-letter categories can pass. */
  predicate IsNormal(category: string)
    ensures IsNormal(category) ==> |category| == 6
  {
    ToLowerCase(category) == "normal"
  }

  /**
    The test is a case-insensitive match: the category is "normal" with each
    letter in either case, and nothing else.
   */
  lemma {:induction false} IsNormalIffCaseVariant(category: string)
    ensures IsNormal(category) <==>
      |category| == 6 && forall i :: 0 <= i < 6 ==> category[i] == "normal"[i] || category[i] == "NORMAL"[i]
  {
    var lower := ToLowerCase(category);
    if |category| == 6 {
      if forall i :: 0 <= i < 6 ==> category[i] == "normal"[i] || category[i] == "NORMAL"[i] {
        assert forall i :: 0 <= i < 6 ==> lower[i] == "normal"[i];
        assert lower == "normal";
      }
      if lower == "normal" {
        forall i | 0 <= i < 6
          ensures category[i] == "normal"[i] || category[i] == "NORMAL"[i]
        {
          assert LowerChar(category[i]) == "normal"[i];
        }
      }
    }
  }

  /** The backend's fallback category and a differently cased "normal". */
  lemma LabelExamples()
    ensures IsNormal("Normal") && IsNormal("NORMAL") && IsNormal("normal")
    ensures !IsNormal("Unknown") && !IsNormal("Tumor") && !IsNormal("normal ")
  {
    IsNormalIffCaseVariant("Normal");
    IsNormalIffCaseVariant("NORMAL");
    IsNormalIffCaseVariant("normal");
    IsNormalIffCaseVariant("Unknown");
    IsNormalIffCaseVariant("Tumor");
    IsNormalIffCaseVariant("normal ");
  }

  /** The body a mocked classifier returns for a normal scan renders on the normal branch. */
  lemma NormalBodyRendersNormal()
    ensures var body := Obj(map["prediction" := Str("Normal")]);
      && Decode(body) == Some(Prediction("Normal", Undefined))
      && Render(Decode(body).value).message == NormalMessage
  {
    NormalBodyDecodes();
    assert IsNormal("Normal") by {
      IsNormalIffCaseVariant("Normal");
    }
  }

  /** The mocked body carries no processing time. */
  lemma NormalBodyDecodes()
    ensures Decode(Obj(map["prediction" := Str("Normal")])) == Some(Prediction("Normal", Undefined))
  {
    var body := Obj(map["prediction" := Str("Normal")]);
    assert "processing_time" !in body.fields by {
      assert body.fields.Keys == {"prediction"};
      assert "processing_time"[2] != "prediction"[2];
    }
  }

  /** `getResultColor`. */
  function ResultColor(category: string): (color: string)
    ensures color == "green" <==> IsNormal(category)
    ensures color == "red" <==> !IsNormal(category)
  {
    if IsNormal(category) then "green" else "red"
  }

  datatype Message = Message(title: string, description: string, recommendation: string)

  const NormalMessage: Message := Message(
    "Normal Kidney Tissue",
    "The AI analysis indicates normal kidney tissue with no signs of tumors or abnormalities.",
    "Continue regular health checkups and maintain a healthy lifestyle.")

  const TumorMessage: Message := Message(
    "Tumor Detected",
    "The AI analysis has detected potential tumor presence in the kidney tissue.",
    "Please consult with a medical professional immediately for further evaluation and treatment options.")

  /** `getResultMessage`: any category that is not "normal", such as "Unknown", takes the tumor branch. */
  function ResultMessage(category: string): (m: Message)
    ensures m == NormalMessage <==> IsNormal(category)
    ensures m == TumorMessage <==> !IsNormal(category)
  {
    if IsNormal(category) then NormalMessage else TumorMessage
  }

  /** `processing_time ? `${processing_time}s` : 'N/A'`: a time of 0 counts as missing. */
  function ProcessingTimeText(t: JsValue): (text: string)
    ensures Truthy(t) ==> text == ToJsString(t) + "s"
    ensures !Truthy(t) ==> text == "N/A"
    ensures text == "N/A" <==> !Truthy(t)
  {
    if Truthy(t) then
      var shown := ToJsString(t) + "s";
      assert shown[|shown| - 1] != "N/A"[2];
      shown
    else
      "N/A"
  }

  /** A time of 0, however written, counts as missing, like an absent one. */
  lemma ZeroTimeShownMissing()
    ensures ProcessingTimeText(Num(Number(0, 0))) == "N/A"
    ensures ProcessingTimeText(Num(Number(0, 2))) == "N/A"
    ensures ProcessingTimeText(Undefined) == "N/A"
  {
  }

  /** A time is printed as JavaScript prints the number: 0.37 as "0.37s", 1.20 as "1.2s". */
  lemma ProcessingTimeExamples()
    ensures ProcessingTimeText(Num(Number(37, 2))) == "0.37s"
    ensures ProcessingTimeText(Num(Number(120, 2))) == "1.2s"
  {
    HundredthsShown();
    TrailingZeroDropped();
  }

  lemma HundredthsShown()
    ensures ToJsString(Num(Number(37, 2))) == "0.37"
  {
    assert Normalize(Number(37, 2)) == Number(37, 2);
    assert Digits.NatToDecimal(37) == Digits.NatToDecimal(3) + ['7'];
    assert Positional(37, 2) == "0.37";
  }

  lemma TrailingZeroDropped()
    ensures ToJsString(Num(Number(120, 2))) == "1.2"
  {
    assert Normalize(Number(120, 2)) == Number(12, 1);
    assert Digits.NatToDecimal(12) == Digits.NatToDecimal(1) + ['2'];
    assert Positional(12, 1) == "1.2";
  }

  /** Everything the view derives from one prediction. */
  datatype View = View(color: string, message: Message, classification: string, processingTime: string)

  /**
    The rendered result: colour and texts follow the normal/tumor branch,
    while the classification line shows the category exactly as received.
   */
  function Render(p: Prediction): (v: View)
    ensures v.color == "green" <==> v.message == NormalMessage
    ensures v.message == NormalMessage <==> IsNormal(p.category)
    ensures IsNormal(p.category) ==> v.color == "green" && v.message == NormalMessage
    ensures !IsNormal(p.category) ==> v.color == "red" && v.message == TumorMessage
    ensures v.classification == "Classification: " + p.category
    ensures v.processingTime == ProcessingTimeText(p.processingTime)
  {
    View(ResultColor(p.category), ResultMessage(p.category), "Classification: " + p.category,
         ProcessingTimeText(p.processingTime))
  }
}

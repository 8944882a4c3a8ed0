/** What the layer update procedures choose to show, without the pixel
    geometry: the progress bucket and "HRM is off" branch, the BPM label,
    the status and Bluetooth icons and the vibration-enabled dot. */
module Display {
  import opened Numeric
  import opened DecimalText
  import opened Activity

  /** The chain of `if`s in `update_progress_layer_proc`, in source order:
      (70,80] -> 25, (80,90] -> 50, (90,100] -> 75, (100,110] -> 75,
      above 110 -> 100, otherwise the initial 0. */
  function ProgressBucket(hr: U16): (p: nat)
    ensures p in {0, 25, 50, 75, 100}
    ensures p == 0 <==> hr <= 70
    ensures p == 100 <==> hr > 110
  {
    if 70 < hr <= 80 then 25
    else if 80 < hr <= 90 then 50
    else if 90 < hr <= 100 then 75
    else if 100 < hr <= 110 then 75
    else if hr > 110 then 100
    else 0
  }

  /** The thresholds the bar's quarters stand for. */
  const Thresholds: seq<int> := [70, 80, 90, 110]

  /** How many of `ts` the heart rate is strictly above. */
  function CountExceeded(ts: seq<int>, hr: int): (c: nat)
    ensures c <= |ts|
  {
    if |ts| == 0 then 0
    else (if hr > ts[0] then 1 else 0) + CountExceeded(ts[1..], hr)
  }

  /** A higher heart rate exceeds at least as many thresholds. */
  lemma {:induction false} CountExceededMonotone(ts: seq<int>, h1: int, h2: int)
    requires h1 <= h2
    ensures CountExceeded(ts, h1) <= CountExceeded(ts, h2)
  {
    if |ts| > 0 {
      CountExceededMonotone(ts[1..], h1, h2);
    }
  }

  /** Reference reading of the chain: a quarter of the bar per threshold
      exceeded. */
  lemma BucketCountsThresholds(hr: U16)
    ensures ProgressBucket(hr) == 25 * CountExceeded(Thresholds, hr)
  {
    var t := Thresholds;
    assert t[1..] == [80, 90, 110] && t[1..][1..] == [90, 110] && t[1..][1..][1..] == [110];
    var c4 := CountExceeded([110], hr);
    assert c4 == if hr > 110 then 1 else 0 by {
      assert [110][1..] == [];
    }
    var c3 := CountExceeded([90, 110], hr);
    assert c3 == (if hr > 90 then 1 else 0) + c4;
    var c2 := CountExceeded([80, 90, 110], hr);
    assert c2 == (if hr > 80 then 1 else 0) + c3;
    assert CountExceeded(t, hr) == (if hr > 70 then 1 else 0) + c2;
  }

  /** The bar never shrinks as the heart rate rises. */
  lemma BucketMonotone(h1: U16, h2: U16)
    requires h1 <= h2
    ensures ProgressBucket(h1) <= ProgressBucket(h2)
  {
    BucketCountsThresholds(h1);
    BucketCountsThresholds(h2);
    CountExceededMonotone(Thresholds, h1, h2);
  }

  /** Capacity of `s_hrm_buffer`, terminating NUL included. */
  const LabelBufferSize: nat := 8

  /** `snprintf(s_hrm_buffer, 8, "%lu BPM", hr)`: the rendered text cut to
      the seven characters that fit before the NUL. */
  function BpmLabel(hr: U16): (s: string)
    ensures |s| < LabelBufferSize
    ensures s <= Decimal(hr) + " BPM"
    ensures |s| == |Decimal(hr) + " BPM"| <==> hr < 1000
    ensures |s| == if hr < 1000 then |Decimal(hr)| + 4 else LabelBufferSize - 1
  {
    var full := Decimal(hr) + " BPM";
    DecimalLength(hr, 3);
    if |full| < LabelBufferSize then full else full[..LabelBufferSize - 1]
  }

  /** The digits of the label always read back as the heart rate: every
      uint16 has at most five digits, so only the " BPM" suffix is ever
      cut (from 1000 upwards). */
  lemma BpmLabelShowsRate(hr: U16)
    ensures Parse(LeadingDigits(BpmLabel(hr))) == hr
  {
    var d := Decimal(hr);
    DecimalLength(hr, 5);
    var full := d + " BPM";
    assert BpmLabel(hr) == d + full[|d|..|BpmLabel(hr)|];
    LeadingDigitsOfDecimal(d, full[|d|..|BpmLabel(hr)|]);
    ParseDecimal(hr);
  }

  /** What the progress layer shows. */
  datatype ProgressView = HrmOff | Bar(progress: nat, text: string)

  /** The branch in `update_progress_layer_proc`: the bar and BPM label
      unless monitoring is stopped, "HRM is off" otherwise. */
  function ProgressLayer(a: App): (v: ProgressView)
    ensures v.HrmOff? <==> a.state == Stopped
    ensures v.Bar? ==> v.progress == ProgressBucket(a.currHr)
    ensures v.Bar? ==> Parse(LeadingDigits(v.text)) == a.currHr
  {
    if a.state != Stopped then
      BpmLabelShowsRate(a.currHr);
      Bar(ProgressBucket(a.currHr), BpmLabel(a.currHr))
    else
      HrmOff
  }

  /** Stopping shows "HRM is off"; the next click shows an empty bar
      labelled 0 BPM. */
  lemma RestartShowsEmptyBar(a: App)
    ensures ProgressLayer(EndActivity(a)) == HrmOff
    ensures ProgressLayer(SelectClick(EndActivity(a))) == Bar(0, "0 BPM")
  {
    assert Decimal(0) == "0";
  }

  /** The status bitmap: RESOURCE_ID_IMAGE_OK or RESOURCE_ID_IMAGE_VIBRATE. */
  datatype StatusIcon = OkIcon | VibrateIcon

  /** `update_status_image_layer_proc`: the vibrate icon from 110 BPM up. */
  function StatusIconFor(hr: U16): (i: StatusIcon)
    ensures i == VibrateIcon <==> hr >= 110
  {
    if hr < 110 then OkIcon else VibrateIcon
  }

  /** The status icon and the full bar agree everywhere except at exactly
      110 BPM, where the icon already says "vibrate" but the bar is at 75. */
  lemma IconVersusFullBar(hr: U16)
    ensures (StatusIconFor(hr) == VibrateIcon) == (ProgressBucket(hr) == 100) <==> hr != 110
    ensures hr == 110 ==> StatusIconFor(hr) == VibrateIcon && ProgressBucket(hr) == 75
  {
  }

  /** The Bluetooth bitmap: RESOURCE_ID_IMAGE_BT_ON or RESOURCE_ID_IMAGE_BT_OFF. */
  datatype BluetoothIcon = BtOn | BtOff

  /** `update_bt_image_layer_proc`. */
  function BluetoothIconFor(a: App): (i: BluetoothIcon)
    ensures i == BtOn <==> a.bluetooth
  {
    if a.bluetooth then BtOn else BtOff
  }

  /** `update_battery_layer_proc`: the filled dot that says vibration is
      enabled is drawn only in Started. */
  function VibrationDotShown(a: App): (shown: bool)
    ensures shown <==> a.state == Started
    ensures shown ==> ProgressLayer(a).Bar?
  {
    a.state == Started
  }

  /** Concrete labels where `snprintf` cuts the text. */
  lemma BpmLabelTruncated()
    ensures BpmLabel(999) == "999 BPM"
    ensures BpmLabel(1000) == "1000 BP"
    ensures BpmLabel(65535) == "65535 B"
  {
  }
}

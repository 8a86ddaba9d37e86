# Per-sample audio effects of maerors-vst3-plugins, in Dafny

This project models the signal-processing core of the maerors-vst3-plugins
effects: the building blocks and the effects made from them. Each effect
works one sample at a time. Samples are `real`s.

Building blocks:

- the interpolating circular delay (`FractionalDelay`);
- the shift-register delay with feedback (`ShiftDelay`);
- the sine LFO (`Lfo`);
- the biquad filter with its eleven coefficient designs (`Biquad`);
- the delaying all-pass stage (`DelayingAllpass`).

Effects built from them:

- the two choruses: the fractional one (`Chorus`) and the integer-index one (`IntegerChorus`);
- the flanger (`Flanger`);
- the phaser (`Phaser`);
- the phase disperser (`Disperser`);
- the mid/side mixer (`MidSideMixer`).

Support modules:

- `Numeric`: Rust's float operations on reals (`clamp`, `round`, `trunc`, `fract`, `%`, `as usize`).
- `Buffers`: the `VecDeque` idiom `rotate_right(1)` then `[0] = x`.
- `Libm`: the transcendental functions. They are passed in, and only their range facts are used.
- `Ownership`: distinctness of the component objects.
- `Cascade`: a bank of biquad stages run in order. The phaser and the disperser share it.

Each Rust struct whose fields change in place is a Dafny `class`. The
`modifies` clause of each method names the fields it may change, down to
single fields of the component objects, and its postconditions give the new
value of each of them. Typically the new state equals a pure function
of the old state (`Tick`, `Advance`, `Step`, `Run`). Lemmas about those
functions give the meaning, for example:

- the fractional delay line returns the input of `k` samples earlier;
- the shift register computes the echo recurrence, and the all-pass stage
  computes a Schroeder all-pass of delay `D + 1`;
- the LFO phase stays in `[0, 2π]` and never drifts;
- each chorus voice reads inside its delay line;
- the phaser's stage positions stay inside their corner ranges;
- the disperser's spread frequencies are clamped into `[400, 15000]`.

## Model

| member | source | states |
|---|---|---|
| Buffers.ZeroFilled | phaser/src/delay.rs:17-23 | the `push_front(0.0)` fill loop leaves exactly `n` zeros |
| Buffers.RotateRight | phaser/src/delay.rs:52 | `rotate_right(1)` keeps the length, moves the last sample to the front and shifts every other sample up by one |
| Buffers.Push | phaser/src/delay.rs:52-53 | rotating then overwriting the front keeps the length, makes `x` the newest sample and ages every other sample by one (the oldest is dropped) |
| Buffers.PushedIsPush | phaser/src/delay.rs:52-53 | the sample-by-sample description of a push holds exactly of the pushed history, in both directions |
| Buffers.PushAllAt | phaser/src/delay.rs:52-53 | after a run of pushes, slot `k` holds the sample pushed `k` pushes before the last, or a sample of the original history when fewer were pushed |
| Buffers.PushAllFromSilence | phaser/src/delay.rs:17-23 | a history started from zeros holds, `k` slots back, the sample pushed `k` pushes ago, or silence |
| Buffers.Resized | flanger/src/delay.rs:45-46 | `Vec::resize(n, 0.0)`: the length becomes `n`, the kept prefix is unchanged and any growth is zeros |
| Lfo.Increment | chorus/src/lfo.rs:50 | the phase step `2π·rate/sample_rate` is non-negative for a non-negative rate and at most `2π` when the rate is at most the sample rate |
| Lfo.AdvanceWrapsAtMostOnce | chorus/src/lfo.rs:49-54 | one `update_lfo` step gives the sum or the sum less `2π`, never less; it only wraps when the sum exceeds `2π` |
| Lfo.AdvanceInRange | chorus/src/lfo.rs:49-54 | from a phase in `[0, 2π]`, a step of at most `2π` keeps the phase in `[0, 2π]` |
| Lfo.AdvanceCanReachTwoPi | chorus/src/lfo.rs:51 | the wrap test is strict, so a phase of exactly `2π` is kept unwrapped |
| Lfo.WrapCount | chorus/src/lfo.rs:49-54 | after `n` steps, at most `n` wraps have happened |
| Lfo.AdvanceNInRange | chorus/src/lfo.rs:49-54 | any number of steps keeps a phase that starts in `[0, 2π]` in `[0, 2π]` |
| Lfo.AdvanceNCongruent | chorus/src/lfo.rs:49-54 | after `n` steps the phase is the start plus `n` increments less a whole number of turns, so wrapping adds no drift |
| Lfo.CongruentStep | chorus/src/lfo.rs:49-54 | one more step keeps the phase equal to the start plus the increments less the turns counted so far |
| Lfo.Remap | chorus/src/lfo.rs:42-47 | the linear remap sends −1 to `start` and +1 to `end`, and no other value to either when `start ≠ end`, and stays between them |
| Lfo.Lfo.constructor | chorus/src/lfo.rs:12-18 | `LFO::new` stores the rate and sample rate and starts at phase 0 |
| Lfo.Lfo.WithPhase | chorus/src/lfo.rs:29-35 | `new_with_phase` stores the given phase unchanged |
| Lfo.Lfo.RandomPhase | chorus/src/lfo.rs:20-27 | `new_random_phase` starts at a drawn phase in `[0, 2π)` |
| Lfo.Lfo.NextValue | chorus/src/lfo.rs:37-40 | `next_value` lies in `[-1, 1]` and reads the phase without changing anything |
| Lfo.Lfo.NextValueRange | chorus/src/lfo.rs:42-47 | `next_value_range` lies in `start..end` and, for `start ≠ end`, hits `start` exactly when the sine is −1 and `end` exactly when it is +1 |
| Lfo.Lfo.UpdateLfo | chorus/src/lfo.rs:49-54 | `update_lfo` changes only the phase, by one wrapped step of the current increment |
| Lfo.Lfo.SetSampleRate | flanger/src/flanger.rs:58-59 | the flanger's `set_sample_rate` changes only the LFO's sample rate |
| FractionalDelay.ReadIndex | flanger/src/delay.rs:54 | for a delay up to `write_index + buffer_size` the read position lies in `[0, buffer_size)`; a longer delay gives a position in `(−buffer_size, 0]`, because `%` keeps the dividend's sign |
| FractionalDelay.CalculateReadIndex | flanger/src/delay.rs:68-78 | the unused helper adds one ring length when the cursor less the delay is negative and keeps an in-range difference |
| FractionalDelay.CalculateReadIndexAgrees | flanger/src/delay.rs:54-78 | for any delay in `[0, write_index + buffer_size]` the unused helper and the modulo formula give the same position |
| FractionalDelay.TapOnSample | flanger/src/delay.rs:55-59 | a read exactly on a sample returns that sample, with no smearing into the next |
| FractionalDelay.TapInterpolates | flanger/src/delay.rs:55-59 | a read between two adjacent samples lies between them |
| FractionalDelay.WholeDelayReadsPast | flanger/src/delay.rs:54-59 | a whole-sample delay `k ≤ write_index + buffer_size` reads the slot `k` behind the cursor |
| FractionalDelay.ZeroDelayIsIdentity | flanger/src/delay.rs:52-59 | because the input is written before the read, a delay of 0 returns the input exactly |
| FractionalDelay.WriteAll | flanger/src/delay.rs:52-63 | successive calls write successive inputs into successive slots of a ring whose length never changes |
| FractionalDelay.WriteAllKeepsRecent | flanger/src/delay.rs:52-63 | the last `buffer_size` inputs are all still in the ring, each in its own slot behind the cursor |
| FractionalDelay.WholeDelayRecallsInput | flanger/src/delay.rs:51-65 | after a run of inputs, a whole-sample delay `k` shorter than the ring returns the input of `k` calls earlier |
| FractionalDelay.OverlongDelayReadsFront | flanger/src/delay.rs:54-59 | a delay beyond `write_index + buffer_size` reads the first two slots with a weight in `(−1, 0]` (the negative position casts to 0) |
| FractionalDelay.Advance | flanger/src/delay.rs:51-65 | one call keeps the ring sizes and keeps the cursor inside the ring |
| FractionalDelay.AdvanceAll | flanger/src/delay.rs:51-65 | after any run of calls the input ring is the successive writes and the cursor has moved one slot per input, modulo the ring, whatever the delays were |
| FractionalDelay.NextSlot | flanger/src/delay.rs:63 | the next cursor is the next slot, or slot 0 after the last, so it stays in `[0, buffer_size)` |
| FractionalDelay.DelayLineRecallsInput | flanger/src/delay.rs:51-65 | whatever delays the earlier calls used, a whole-sample delay `k` shorter than the ring returns the input of `k` calls earlier |
| FractionalDelay.Delay.constructor | flanger/src/delay.rs:23-41 | `new` makes two zeroed rings of `MAX_DELAY·sample_rate` samples with the cursor at 0 |
| FractionalDelay.Delay.ResizeBuffers | flanger/src/delay.rs:43-48 | both rings are resized in place, keeping their prefix and zero-filling growth; the cursor is not reset, so the line stays usable only if the cursor still fits |
| FractionalDelay.Delay.ProcessSample | flanger/src/delay.rs:51-66 | only the slot at the cursor changes in each ring: the input ring gets `x` and the output ring gets the returned interpolated read; the cursor advances by one modulo the ring |
| ShiftDelay.Tick | phaser/src/delay.rs:51-63 | one call keeps both history lengths and the tap inside them |
| ShiftDelay.Echo | phaser/src/delay.rs:50-63 | the output of `y[n] = x[n − d] + fb·y[n − d − 1]` has one sample per input |
| ShiftDelay.RunComputesEcho | phaser/src/delay.rs:51-63 | from silent histories, the input history is the inputs pushed so far and the output history holds the echo recurrence, whose feedback tap is one sample older than its input tap |
| ShiftDelay.OutputFromSilence | phaser/src/delay.rs:55-57 | read from histories built from silence, the output is the next sample of the echo recurrence |
| ShiftDelay.TapsFromSilence | phaser/src/delay.rs:52-57 | the input tap, read after `x` is pushed, is `d` samples old, and the feedback tap is `d + 1` samples old; both read silence before the first sample |
| ShiftDelay.EchoWithoutFeedback | phaser/src/delay.rs:55-57 | with zero feedback the register delays its input by exactly `d` samples, and by none when `d = 0` |
| ShiftDelay.Delay.constructor | phaser/src/delay.rs:15-39 | `new` fills both histories with `MAX_DELAY·sample_rate` zeros and clamps the feedback into `[0, 1]` |
| ShiftDelay.Delay.ResizeBuffers | phaser/src/delay.rs:41-48 | `resize_buffers` replaces both histories with `MAX_DELAY·sample_rate` zeros |
| ShiftDelay.Delay.ProcessSample | phaser/src/delay.rs:51-63 | needs the tap inside the histories (the `unwrap` panics otherwise); the input history gets `x` pushed, the output is the new input tap plus the feedback times the old output tap, and that output is pushed on the output history |
| Biquad.ToIndex | chorus_vst/src/filter.rs:53-67 | every variant has an index of at most 10 |
| Biquad.FromIndex | chorus_vst/src/filter.rs:69-84 | an index above 10 is the panic; any other index gives the variant whose index it is |
| Biquad.FromIndexToIndex | chorus_vst/src/filter.rs:53-84 | every one of the eleven variants survives the round trip through its index |
| Biquad.StepShiftsHistory | chorus_vst/src/filter.rs:164-181 | a step ages each history by one sample and stores the raw recurrence, which is also the output when `c0 = 1, d0 = 0` |
| Biquad.InitialFilterIsSilent | chorus_vst/src/filter.rs:132-146 | with the coefficients of `new`, the filter outputs 0 whatever it is fed |
| Biquad.UnityDcFixedPoint | chorus_vst/src/filter.rs:164-181 | a design with unit DC gain and no post-scale passes a settled constant unchanged, and its state is a fixed point |
| Biquad.BlockedDcFixedPoint | chorus_vst/src/filter.rs:164-181 | a design with zero DC gain settles a constant input to a raw output of 0 |
| Biquad.FirstOrderLpf | chorus_vst/src/filter.rs:225-234 | the first-order low-pass design has no post-scale, unit DC gain, `a0 = a1` and no second-order terms |
| Biquad.FirstOrderHpf | chorus_vst/src/filter.rs:236-245 | the first-order high-pass design has no post-scale, zero DC gain, `a1 = −a0` and no second-order terms |
| Biquad.SecondOrderLpf | chorus_vst/src/filter.rs:247-261 | the second-order low-pass design has no post-scale, unit DC gain and `a0 = a2 = a1/2` |
| Biquad.SecondOrderHpf | chorus_vst/src/filter.rs:263-277 | the second-order high-pass design has no post-scale, zero DC gain and `a0 = a2 = −a1/2` |
| Biquad.BandPassDesign | chorus_vst/src/filter.rs:279-288 | the band-pass design has no post-scale, zero DC gain, `a1 = 0` and `a2 = −a0` |
| Biquad.NotchDesign | chorus_vst/src/filter.rs:290-299 | the notch design has no post-scale, unit DC gain, `a0 = a2` and `a1 = b0` |
| Biquad.OverCommonDenominator | chorus_vst/src/filter.rs:290-299 | dividing every coefficient by one non-zero denominator keeps unit DC gain |
| Biquad.FirstOrderAllpass | chorus_vst/src/filter.rs:301-311 | the first-order all-pass design has no post-scale, unit DC gain, `a0 = b0`, `a1 = 1` and `a2 = b1 = 0` |
| Biquad.SecondOrderAllpass | chorus_vst/src/filter.rs:313-325 | the second-order all-pass design has no post-scale, unit DC gain, `a0 = b1`, `a1 = b0` and `a2 = 1` |
| Biquad.LowShelfDesign | chorus_vst/src/filter.rs:327-342 | the low shelf post-scales with `c0 = u − 1, d0 = 1` for the linear gain `u`, around a first-order low-pass term of unit DC gain |
| Biquad.HighShelfDesign | chorus_vst/src/filter.rs:344-358 | the high shelf post-scales with `c0 = u − 1, d0 = 1`, around a first-order high-pass term of zero DC gain |
| Biquad.LowShelfDcGain | chorus_vst/src/filter.rs:327-342 | a low shelf multiplies a settled constant by the linear gain `u` |
| Biquad.HighShelfDcGain | chorus_vst/src/filter.rs:344-358 | a high shelf passes a settled constant unchanged |
| Biquad.PeakDesign | chorus_vst/src/filter.rs:360-386 | both branches of the peak design (boost and cut) have no post-scale, unit DC gain and `a1 = b0` |
| Biquad.PeakSums | chorus_vst/src/filter.rs:360-386 | the intermediate sums of both peak branches give unit DC gain |
| Biquad.DesignPostScale | chorus_vst/src/filter.rs:388-424 | only the two shelves post-scale; every other design leaves `c0 = 1, d0 = 0`, so its output is the raw recurrence |
| Biquad.DesignDcResponse | chorus_vst/src/filter.rs:388-424 | the low-passes, notch, all-passes and peak pass DC at unit gain; the high-passes and band-pass block it |
| Biquad.BiquadFilter.constructor | chorus_vst/src/filter.rs:132-146 | `new` has zero histories, every coefficient 0 except `c0 = 1`, and sample rate 44100 |
| Biquad.BiquadFilter.SetSampleRate | chorus_vst/src/filter.rs:148-150 | only the stored sample rate changes |
| Biquad.BiquadFilter.ResetFilter | chorus_vst/src/filter.rs:152-161 | all eight history cells become 0; the coefficients and the sample rate are untouched |
| Biquad.BiquadFilter.ProcessLeft | chorus_vst/src/filter.rs:164-181 | one step of the left history only, returning `c0·y + d0·x` for the raw recurrence `y` |
| Biquad.BiquadFilter.ProcessRight | chorus_vst/src/filter.rs:183-200 | one step of the right history only; the left history and the coefficients are untouched |
| Biquad.BiquadFilter.SetCoefficients | chorus_vst/src/filter.rs:202-204 | only the coefficients change, to the given set |
| Biquad.BiquadFilter.Coefficient | chorus_vst/src/filter.rs:206-217 | an index above 6 is the panic; indices 0 to 6 read `a0` through `d0` in declaration order |
| Biquad.BiquadFilter.SValue | chorus_vst/src/filter.rs:220-223 | the sum of the coefficients read at indices 1 to 4 |
| Biquad.BiquadFilter.FirstOrderLpfCoefficients | chorus_vst/src/filter.rs:225-234 | only the coefficients change, to the first-order low-pass design |
| Biquad.BiquadFilter.FirstOrderHpfCoefficients | chorus_vst/src/filter.rs:236-245 | only the coefficients change, to the first-order high-pass design |
| Biquad.BiquadFilter.SecondOrderLpfCoefficients | chorus_vst/src/filter.rs:247-261 | only the coefficients change, to the second-order low-pass design |
| Biquad.BiquadFilter.SecondOrderHpfCoefficients | chorus_vst/src/filter.rs:263-277 | only the coefficients change, to the second-order high-pass design |
| Biquad.BiquadFilter.BandPassCoefficients | chorus_vst/src/filter.rs:279-288 | only the coefficients change, to the band-pass design |
| Biquad.BiquadFilter.NotchCoefficients | chorus_vst/src/filter.rs:290-299 | only the coefficients change, to the notch design |
| Biquad.BiquadFilter.FirstOrderAllpassCoefficients | chorus_vst/src/filter.rs:301-311 | only the coefficients change, to the first-order all-pass design |
| Biquad.BiquadFilter.SecondOrderAllpassCoefficients | chorus_vst/src/filter.rs:313-325 | only the coefficients change, to the second-order all-pass design |
| Biquad.BiquadFilter.LowShelfCoefficients | chorus_vst/src/filter.rs:327-342 | only the coefficients change, to the low-shelf design |
| Biquad.BiquadFilter.HighShelfCoefficients | chorus_vst/src/filter.rs:344-358 | only the coefficients change, to the high-shelf design |
| Biquad.BiquadFilter.PeakCoefficients | chorus_vst/src/filter.rs:360-386 | only the coefficients change, to the peak design |
| Biquad.BiquadFilter.Coefficients | chorus_vst/src/filter.rs:388-424 | the dispatch installs exactly the design matching the filter type, always at the stored sample rate |
| DelayingAllpass.DelaySamples | phaser_vst/src/delayingallpass.rs:80 | the tap in samples is the rounded `delay_ms/1000·sample_rate`; it saturates at 0 for a non-positive product |
| DelayingAllpass.Tick | phaser_vst/src/delayingallpass.rs:85-107 | one call keeps both history lengths and the tap inside them |
| DelayingAllpass.Allpass | phaser_vst/src/delayingallpass.rs:86-88 | the Schroeder all-pass recurrence has one output per input |
| DelayingAllpass.RunComputesAllpass | phaser_vst/src/delayingallpass.rs:85-95 | from silent histories, a channel computes exactly the all-pass recurrence `y[n] = −g·x[n] + x[n − D − 1] + g·y[n − D − 1]`, because the taps are read before the pushes |
| DelayingAllpass.OutputFromSilence | phaser_vst/src/delayingallpass.rs:86-88 | read from histories built from silence, the stage output is the next sample of the all-pass recurrence |
| DelayingAllpass.TapsFromSilence | phaser_vst/src/delayingallpass.rs:86-88 | both taps are `D + 1` samples old and read silence before the first sample |
| DelayingAllpass.AllpassWithoutGain | phaser_vst/src/delayingallpass.rs:86-88 | with zero gain the stage delays its input by exactly `D + 1` samples |
| DelayingAllpass.SettledConstantPasses | phaser_vst/src/delayingallpass.rs:85-95 | a constant that has settled in both histories passes unchanged at any gain, and the histories stay as they are |
| DelayingAllpass.DelayingAllPass.constructor | phaser_vst/src/delayingallpass.rs:18-47 | `new` fills four histories with `sample_rate as usize` zeros and derives the tap from milliseconds |
| DelayingAllpass.DelayingAllPass.NewSamples | phaser_vst/src/delayingallpass.rs:49-63 | `new_samples` refills the four histories with zeros, truncates the tap given in samples and keeps `delay_ms` |
| DelayingAllpass.DelayingAllPass.ResizeBuffers | phaser_vst/src/delayingallpass.rs:65-77 | `resize_buffers` refills the four histories with `sample_rate as usize` zeros and keeps the tap |
| DelayingAllpass.DelayingAllPass.SetParams | phaser_vst/src/delayingallpass.rs:79-83 | the tap is derived from milliseconds at the stored sample rate and the gain is stored |
| DelayingAllpass.DelayingAllPass.ProcessLeft | phaser_vst/src/delayingallpass.rs:85-95 | one all-pass step of the left histories only: output `−g·x + x[D] + g·y[D]` from the old histories, then `x` and the output are pushed |
| DelayingAllpass.DelayingAllPass.ProcessRight | phaser_vst/src/delayingallpass.rs:97-107 | the same step on the right histories only |
| Chorus.VoiceDelay | chorus/src/chorus.rs:166-173 | the swing is clamped into `[1 − d, d − 1]` (the clamp panics for `d < 1`), so every requested delay lies in `[1, 2d − 1]`; a swing inside the range is kept, and no modulation reads at exactly `d` |
| Chorus.MixIsCrossfade | chorus/src/chorus.rs:178-186 | with `wet = mix, dry = 1 − mix` the gains sum to one, the renormalisation never fires and the output is a crossfade of the input and the voices' average |
| Chorus.MixBounded | chorus/src/chorus.rs:178-184 | with non-negative gains the output is no larger in magnitude than the input and the voices' average, because the renormalisation keeps the gains' sum at most one |
| Chorus.Chorus.constructor | chorus/src/chorus.rs:47-106 | `new` builds five distinct zeroed delay lines and five distinct LFOs per side at the drawn phases, both feedback buffers of `sample_rate as usize` zeros, `calc_depth = 0` and mono off; each line holds `MAX_DELAY·(sample_rate as usize)` samples at that sample rate and is ready exactly when that size is positive, so both sides can process once the nominal delay is at least one sample |
| Chorus.Chorus.SetParams | chorus/src/chorus.rs:108-141 | the sample rate and the rate go to all ten LFOs (phases kept), `delay/1000·sr` to every delay line's `delay` (contents kept), `calc_depth = depth/1000·sr`, `wet = mix` and `dry = 1 − mix` |
| Chorus.Chorus.StoreParams | chorus/src/chorus.rs:110-140 | the scalar fields take the values `set_params` derives |
| Chorus.Chorus.ConfigureLfos | chorus/src/chorus.rs:112-134 | every LFO of both sides gets the sample rate and the rate; phases are kept |
| Chorus.Chorus.SetDelayTimes | chorus/src/chorus.rs:119-124 | every delay line of both sides gets the nominal delay; ring contents, sizes and sample rates are kept |
| Chorus.Chorus.ResizeBuffers | chorus/src/chorus.rs:143-155 | every delay line is resized in place to `MAX_DELAY·(sample_rate as usize)` samples, with cursor and contents kept as `Vec::resize` keeps them, and stays ready exactly when its old cursor lies inside the new size; delay and sample rate are kept; both feedback buffers become `sample_rate as usize` zeros |
| Chorus.Chorus.ProcessVoices | chorus/src/chorus.rs:162-173 | voices 0 to 2 each take the input and are read at the clamped delay from their LFO's current value; the result is the sum of the three reads |
| Chorus.Chorus.ProcessLeft | chorus/src/chorus.rs:159-187 | the input is `x + wet·feedback·fb[0]`; only the rings and cursors of the left voices 0 to 2 advance (their delay, size and sample rate are kept) and only `fb[0]` is overwritten, with the voices' average, so the buffer keeps its length; the output is the mix; no LFO advances |
| Chorus.Chorus.ProcessRight | chorus/src/chorus.rs:189-224 | the same on the right side, modulated by the left LFOs 0 to 2 in mono mode and by the right ones otherwise; only the rings and cursors of the right voices 0 to 2 change; no LFO advances |
| Chorus.Chorus.UpdateModulators | chorus/src/chorus.rs:226-233 | each of the ten LFOs advances exactly one step; rates and sample rates are kept |
| Chorus.NewDelays | chorus/src/chorus.rs:55-57 | five distinct fresh delay lines, each zeroed with its cursor at 0, `MAX_DELAY·n` samples long at sample rate `n`, with the nominal delay stored, and ready exactly when `n > 0` |
| Chorus.NewBanks | chorus/src/chorus.rs:54-59 | the delay lines and LFOs of both sides as `new` builds them, all twenty objects distinct |
| Chorus.NewLfos | chorus/src/chorus.rs:55-59 | five distinct fresh LFOs at the drawn phases, with the given rate and sample rate |
| Chorus.SetSampleRates | chorus/src/chorus.rs:112-115 | every LFO of a side gets the sample rate; rates and phases are kept |
| Chorus.SetRates | chorus/src/chorus.rs:131-134 | every LFO of a side gets the rate; sample rates and phases are kept |
| Chorus.SetDelays | chorus/src/chorus.rs:119-124 | every delay line of a side gets `d` as its `delay`; contents are kept |
| Chorus.ResizeBank | chorus/src/chorus.rs:144-147 | every delay line of a side is resized to `MAX_DELAY·n` samples, keeping its cursor, delay and sample rate, and is ready afterwards exactly when its cursor lies inside the new size |
| Chorus.AdvanceBank | chorus/src/chorus.rs:227-232 | every LFO of a side advances exactly one step |
| IntegerChorus.ToI32 | biquad_filter/src/chorus.rs:123 | the `as i32` cast saturates at both ends and keeps every value that fits |
| IntegerChorus.Offset | biquad_filter/src/chorus.rs:123-125 | the rounded swing is clamped into `[1 − d, d − 1]` (the clamp panics for `d < 1`) |
| IntegerChorus.SaturationInvisible | biquad_filter/src/chorus.rs:123-125 | while `d` fits an `i32`, the cast's saturation never changes the clamped swing |
| IntegerChorus.VoiceIndex | biquad_filter/src/chorus.rs:123-134 | every voice reads at a whole-sample delay in `[1, 2d − 1]` |
| IntegerChorus.UnmodulatedVoiceIndex | biquad_filter/src/chorus.rs:132-134 | without modulation a voice reads at exactly `d` |
| IntegerChorus.OffsetFollowsLfo | biquad_filter/src/chorus.rs:123-125 | a rounded swing inside `[1 − d, d − 1]` is used as it is |
| IntegerChorus.FeedbackTapAge | biquad_filter/src/chorus.rs:121-137 | the feedback read at index `d` returns the average pushed `d` pushes before the last, that is, `d + 1` calls before the reading call |
| IntegerChorus.FullGainsAverage | biquad_filter/src/chorus.rs:139-147 | `wet` and `dry` are independent, so the renormalisation can fire: at both gains one the output is the mean of the input and the voices' average |
| IntegerChorus.Register.constructor | biquad_filter/src/chorus.rs:40-47 | the feedback buffer starts as `n` zeros |
| IntegerChorus.Register.Reset | biquad_filter/src/chorus.rs:110-115 | the feedback buffer is replaced by `n` zeros |
| IntegerChorus.Register.PushFront | biquad_filter/src/chorus.rs:136-137 | `rotate_right(1)` then `[0] = x` keeps the length, makes `x` the newest sample and ages every other sample by one |
| IntegerChorus.Chorus.constructor | biquad_filter/src/chorus.rs:25-65 | `new` builds five distinct zeroed delay lines with feedback 0 and five distinct LFOs per side at the drawn phases; `delay_samples` is the rounded `delay_ms/1000·sr`; both feedback buffers are `sample_rate as usize` zeros |
| IntegerChorus.Chorus.SetParams | biquad_filter/src/chorus.rs:67-102 | the sample rate and rate go to all ten LFOs (phases kept), the rounded whole-sample delay to every delay line (histories and feedback kept), `calc_depth = depth/1000·sr`, and `wet`, `dry` as given |
| IntegerChorus.Chorus.StoreParams | biquad_filter/src/chorus.rs:69-101 | the scalar fields take the values `set_params` derives |
| IntegerChorus.Chorus.ConfigureLfos | biquad_filter/src/chorus.rs:71-96 | every LFO of both sides gets the sample rate and the rate; phases are kept |
| IntegerChorus.Chorus.SetDelayTimes | biquad_filter/src/chorus.rs:78-83 | every delay line of both sides gets the whole-sample delay; histories and feedback are kept |
| IntegerChorus.Chorus.ResizeBuffers | biquad_filter/src/chorus.rs:104-116 | every delay line gets fresh silent histories for the new rate (delay and feedback kept) and both feedback buffers become `sample_rate as usize` zeros |
| IntegerChorus.Chorus.ProcessLeft | biquad_filter/src/chorus.rs:120-148 | the input is `x + wet·feedback·fb[d]`; left voices 0 to 2 each take it at their clamped whole-sample delay; left LFOs 0 to 2 advance exactly once; the voices' average is pushed into the left buffer, which keeps its length; the output is the mix; the right side, each line's delay and feedback and each LFO's rate and sample rate are untouched |
| IntegerChorus.Chorus.ProcessRight | biquad_filter/src/chorus.rs:150-177 | the mirror of `process_left` on the right voices, LFOs and buffer; only histories, phases and the buffer change |
| IntegerChorus.ProcessVoices | biquad_filter/src/chorus.rs:131-134 | voices 0 to 2 each take the input at their own whole-sample delay; the result is the sum of their outputs; only their histories change |
| IntegerChorus.ProcessSide | biquad_filter/src/chorus.rs:120-148 | one side's call: voice delays from the LFOs' current values, then each LFO steps once, then the voices run, the average is pushed and the mix is returned; only histories, phases and the buffer change |
| IntegerChorus.DelayAndMix | biquad_filter/src/chorus.rs:131-147 | with the read positions fixed: the three voices run, their average is pushed into the buffer and the output mixes the input with the voice sum; only histories and the buffer change |
| IntegerChorus.AdvanceVoices | biquad_filter/src/chorus.rs:127-129 | LFOs 0 to 2 each advance exactly one step; rates and sample rates are kept |
| IntegerChorus.NewSide | biquad_filter/src/chorus.rs:33-47 | one side's five fresh distinct delay lines and LFOs and its zeroed feedback buffer |
| IntegerChorus.NewDelays | biquad_filter/src/chorus.rs:34-35 | five distinct fresh delay lines `Delay::new(n, d, 0.0)` |
| IntegerChorus.SetDelays | biquad_filter/src/chorus.rs:78-83 | every delay line of a side gets `d`; histories and feedback are kept |
| IntegerChorus.ResizeBank | biquad_filter/src/chorus.rs:105-108 | every delay line of a side gets fresh silent histories of `MAX_DELAY·n` samples |
| Flanger.CalculatedDepth | flanger/src/flanger.rs:72-73 | for a depth in `[0, 1]` the sweep depth lies between zero and 15 ms worth of samples |
| Flanger.MixWeights | flanger/src/flanger.rs:88-92 | above a gain sum of one the mix is a weighted average (weights summing to one); otherwise the gains are used as they are |
| Flanger.MixBounded | flanger/src/flanger.rs:88-92 | with non-negative gains the mix stays within any bound both the input and the delayed sample respect |
| Flanger.RequestInsideRing | flanger/src/flanger.rs:82-109 | each side's requested delay lies between `start` times the depth and 15 ms, shorter than the one-second ring, so the read position is a point of the ring |
| Flanger.RequestWithinDepth | flanger/src/flanger.rs:82-84 | an LFO value in `start..1` asks for at least `start` times the depth and at most the depth |
| Flanger.RingHoldsLongestDelay | flanger/src/flanger.rs:28-31 | a ring of `sample_rate as usize` samples holds more than the 15 ms longest sweep |
| Flanger.LeftTroughPassesInput | flanger/src/flanger.rs:82-84 | at the trough of the left LFO the left delay line returns the very sample it is given |
| Flanger.Flanger.constructor | flanger/src/flanger.rs:27-50 | both delay lines zeroed with `sample_rate as usize` samples and the cursor at zero; LFOs at 0.2 Hz with phases 0 and π/2; registers, gains and parameters zero; mono modulation; an undesigned output filter |
| Flanger.Flanger.ResizeBuffers | flanger/src/flanger.rs:52-63 | both delay lines resized to the new rate (contents kept up to the new size, cursor kept), both registers cleared, the LFOs and filter moved to the new rate and the filter designed as a 30 Hz, Q 0.75 high-pass |
| Flanger.Flanger.SetParams | flanger/src/flanger.rs:65-78 | the rate reaches both LFOs, the depth becomes samples at the stored rate, the other parameters are stored |
| Flanger.Flanger.ProcessLeft | flanger/src/flanger.rs:80-93 | the left line takes `x + register·feedback` at the left LFO's request (the LFO does not step), the register keeps the delayed sample, and the output is the high-passed mix; the line's delay, size and sample rate and the filter's right state are untouched |
| Flanger.Flanger.ProcessRight | flanger/src/flanger.rs:95-118 | in stereo mode both LFOs step and the right one modulates; in mono mode only the left LFO steps and modulates; then the right line's ring and cursor, the register and the filter state advance as on the left |
| Flanger.Flanger.AdvanceModulators | flanger/src/flanger.rs:96-103 | the left LFO advances exactly one step, the right one too in stereo mode and not otherwise |
| Flanger.NewDelay | flanger/src/flanger.rs:28-31 | `Delay::new` followed by a resize to the same size leaves a zeroed line with the cursor at zero |
| Cascade.SteadyLevelPasses | phaser_vst/src/phaser.rs:89-97 | stages that pass DC at unit gain, each resting at a level `v`, pass a constant `v` through unchanged and all stay at rest |
| Cascade.RunLeft | phase-disperser/src/disperser.rs:74-77 | the loop feeds each of the first `count` stages the output of the one before, stepping only their left histories; the result is the series output, the later stages and all coefficients are untouched |
| Cascade.StepStageLeft | phase-disperser/src/disperser.rs:76 | one turn of that loop extends the series run by exactly one stage |
| Cascade.RunRight | phase-disperser/src/disperser.rs:83-86 | the same series run on the right histories |
| Cascade.StepStageRight | phase-disperser/src/disperser.rs:85 | one turn of the right loop extends the series run by exactly one stage |
| Cascade.RetuneRunLeft | phaser_vst/src/phaser.rs:89-97 | each stage receives its new coefficients just before it steps its left history on the previous stage's output; the result is the series output under the new coefficients, later stages keep theirs |
| Cascade.RetuneStageLeft | phaser_vst/src/phaser.rs:90-96 | one turn: stage `i` is redesigned and then extends the series run by one stage |
| Cascade.RetuneRunRight | phaser_vst/src/phaser.rs:112-120 | the same retuning series run on the right histories |
| Cascade.RetuneStageRight | phaser_vst/src/phaser.rs:113-119 | one turn of the right retuning loop |
| Cascade.NewBank | phase-disperser/src/disperser.rs:24-29 | one fresh, distinct stage per design, each with the given rate and design and silent histories |
| Cascade.NewStage | phase-disperser/src/disperser.rs:25-27 | a fresh stage with the given rate and design and silent histories |
| Cascade.Retune | phase-disperser/src/disperser.rs:36-63 | the first stages take the new designs in order; histories and the later stages are untouched |
| Cascade.ResetRange | phase-disperser/src/disperser.rs:64-69 | exactly the stages in `lo..hi` fall silent on both channels; every other stage keeps its histories |
| Cascade.RetuneAndReset | phase-disperser/src/disperser.rs:36-69 | each stage ends with the new or old design according to its index, and silent or kept histories according to whether it is in the reset range |
| Phaser.Lerp | phaser_vst/src/phaser.rs:134-136 | the interpolation starts at `a` for `t = 0` and ends at `b` for `t = 1` |
| Phaser.LerpBetween | phaser_vst/src/phaser.rs:134-136 | for `t` in `[0, 1]` the interpolation stays between its end points |
| Phaser.Sweep | phaser_vst/src/phaser.rs:94 | the sweep position always lies in `[0, 1]`, pinned at 0 when `lfo·depth + offset` reaches −1 and at 1 when it reaches 1 |
| Phaser.StageCutoff | phaser_vst/src/phaser.rs:89-95 | stage `i`'s corner lies within its own `PHASER_DELAYS` range, at the low end for position 0 and the high end for position 1 |
| Phaser.Cutoffs | phaser_vst/src/phaser.rs:89-94 | the active stages' corners, one per stage, in stage order |
| Phaser.Designed | phaser_vst/src/phaser.rs:90-95 | one first-order all-pass design per corner, in stage order |
| Phaser.PhasedPassesSteadyLevel | phaser_vst/src/phaser.rs:89-97 | whatever the corners, a constant level at which the active stages rest passes the bank unchanged and leaves them at rest |
| Phaser.OutputCrossfades | phaser_vst/src/phaser.rs:101-102 | the output moves from the dry input at intensity 0 to the phased signal at intensity 2, the even mix at intensity 1 |
| Phaser.Phaser.constructor | phaser_vst/src/phaser.rs:29-60 | registers of 1000 zeros; six distinct stages designed at their lowest corners for the given rate, silent; an LFO at 0.2 Hz and phase 0; zero parameters; a stored rate of 44100 whatever the argument |
| Phaser.Phaser.ResizeBuffers | phaser_vst/src/phaser.rs:62-71 | the rate is stored and given to the LFO, both registers become `sample_rate as usize` zeros, the stages keep their state |
| Phaser.Phaser.SetParams | phaser_vst/src/phaser.rs:73-81 | the parameters and the LFO rate are stored; nothing else changes |
| Phaser.Phaser.ProcessLeft | phaser_vst/src/phaser.rs:83-104 | the first `stages·2` stages are redesigned for the current LFO value and run in series on `x + feedback·register[0]`; the phased signal is pushed into the register; the output is the intensity crossfade; the LFO is not advanced and the right histories are untouched |
| Phaser.Phaser.ProcessLeftAt | phaser_vst/src/phaser.rs:85-103 | the same with the call's designs given: the series output under them, the register push and the crossfade |
| Phaser.Phaser.ProcessRight | phaser_vst/src/phaser.rs:106-130 | the mirror of `process_left` on the right histories and register, after which the shared LFO advances exactly one step |
| Phaser.Phaser.ProcessRightAt | phaser_vst/src/phaser.rs:108-129 | the right side with the call's designs given, before the LFO step |
| Disperser.SpreadMin | phase-disperser/src/disperser.rs:42-47 | the low end of the spread is never below 300 Hz and is `frequency` less half the spread range whenever that is not |
| Disperser.SpreadMax | phase-disperser/src/disperser.rs:42-51 | the high end of the spread is never above 15 kHz and is `frequency` plus half the spread range whenever that is not |
| Disperser.SpreadPositionRange | phase-disperser/src/disperser.rs:52 | every stage's position lies in `[−1, 1)`, the middle stage sits at 0, and stage 0 of an even amount at −1 |
| Disperser.SpreadPositionRises | phase-disperser/src/disperser.rs:52 | positions rise with the stage index |
| Disperser.ClampCorner | phase-disperser/src/disperser.rs:53-58 | a spread corner always lies in `[400 Hz, 15 kHz]` and is unchanged when already inside |
| Disperser.SpreadPointRises | phase-disperser/src/disperser.rs:52 | along a range that is not inverted the point rises with the position |
| Disperser.StageFrequency | phase-disperser/src/disperser.rs:39-62 | with a positive spread every corner lies in `[400 Hz, 15 kHz]`; otherwise every stage gets `frequency` itself |
| Disperser.MiddleStageAtSpreadMin | phase-disperser/src/disperser.rs:44-59 | the middle stage of a spread bank is tuned to `spread_min`, not to the base frequency |
| Disperser.StageFrequencyRises | phase-disperser/src/disperser.rs:39-59 | when the spread range is not inverted the corners rise with the stage index |
| Disperser.StageDesigns | phase-disperser/src/disperser.rs:36-62 | one second-order all-pass per active stage, designed at that stage's corner and the common `q` |
| Disperser.DispersedPassesSteadyLevel | phase-disperser/src/disperser.rs:73-79 | whatever the spread, a constant level at which the active stages rest passes the bank unchanged and leaves them at rest |
| Disperser.Disperser.constructor | phase-disperser/src/disperser.rs:11-18 | no stages, a fresh silent undesigned output filter, a rate of 44100 and an amount of 200 |
| Disperser.Disperser.ResizeBuffers | phase-disperser/src/disperser.rs:20-32 | a new bank of 200 fresh distinct stages, each at the new rate and designed at `frequency`, `q`, silent; the amount stored as given; the output filter becomes the 30 Hz, Q 0.707 high-pass at the new rate |
| Disperser.Disperser.SetParams | phase-disperser/src/disperser.rs:34-71 | the first stages up to the old amount get their corner designs; the stages from the new amount up to the old one fall silent and no others; every other design and history is kept; the new amount is stored |
| Disperser.Disperser.ProcessLeft | phase-disperser/src/disperser.rs:73-80 | the input runs in series through the active stages' left histories and then the output high-pass; later stages, designs and right histories are untouched |
| Disperser.Disperser.ProcessRight | phase-disperser/src/disperser.rs:82-89 | the same on the right histories |
| MidSideMixer.Mix | mid-side-mixer/src/mid_side_mixer.rs:28-33 | the outputs' sum carries only the mid, scaled by `mid_mix`, and their difference only the side, scaled twice by `side_mix` |
| MidSideMixer.MixDetermined | mid-side-mixer/src/mid_side_mixer.rs:29-33 | that sum and difference determine the output pair completely |
| MidSideMixer.MixSwaps | mid-side-mixer/src/mid_side_mixer.rs:29-33 | swapping the input channels swaps the outputs |
| MidSideMixer.MixOfMono | mid-side-mixer/src/mid_side_mixer.rs:29-33 | a mono input has no side: both outputs are the input times `mid_mix` |
| MidSideMixer.MixMidOnly | mid-side-mixer/src/mid_side_mixer.rs:29-33 | at mid 1 and side 0 both outputs are the channels' average |
| MidSideMixer.MixReconstructs | mid-side-mixer/src/mid_side_mixer.rs:29-33 | since the sides are not halved, mid 1 and side ½ return the input unchanged, and side 1 widens it |
| MidSideMixer.MidSideMixer.constructor | mid-side-mixer/src/mid_side_mixer.rs:12-21 | every field starts at zero |
| MidSideMixer.MidSideMixer.SetParams | mid-side-mixer/src/mid_side_mixer.rs:23-26 | the two levels are stored and nothing else changes |
| MidSideMixer.MidSideMixer.Process | mid-side-mixer/src/mid_side_mixer.rs:28-34 | the mid and both sides of the pair are stored and the returned pair is the mix at the current levels |

## Left out

- Floating point: samples, gains and coefficients are exact reals. f32 rounding, overflow, NaN and infinities are not modelled. Where the source would divide by zero and produce an infinity (a zero sample rate in `update_lfo`, a filter design whose denominator vanishes), the model requires a positive sample rate instead (the constructors of the two choruses, the flanger, the phaser and the LFO, the choruses' `set_params`, the flanger's and the phaser's `resize_buffers`, and `Lfo.Lfo.SetSampleRate`), and a non-zero denominator for the filter designs.
- Lfo.Lfo.SetSampleRate: requires a positive rate, as the LFO constructors do, because `update_lfo` divides by the sample rate and the model keeps the phase a finite value in `[0, 2π]`.
- Transcendental functions: `sin`, `cos`, `tan`, `powf` and π are the fields of a `Libm` value passed to every member that needs them. Only their ranges (`sin` and `cos` in `[-1, 1]`, a positive power of a positive base) are used, so nothing is proved about frequency response.
- Randomness: `new_random_phase` takes its drawn phase as a parameter in `[0, 2π)`; the generator itself is not modelled.
- Host glue and user interface: the `lib.rs` plugin files and the editors are not part of this model. The rules they add on top of the effects are not modelled either: the filter reset on a type change, the Q clamp, the doubled chorus rate and the call order of `update_modulators`.
- Allocation: `Vec::with_capacity`, `Box` and the deques' capacities are not modelled; only lengths and contents are.
- Casts: `as usize` is modelled as truncation towards zero that saturates at zero (`ToUsize`, `RoundToUsize`), with no upper saturation at `usize::MAX`.
- IntegerChorus.Offset: leaves out the saturation of the `as i32` cast of the rounded swing and the wrap of `delay_samples as i32`. `SaturationInvisible` shows the first never shows while the delay fits an `i32`; the second only matters for delays of more than `i32::MAX` samples, which the one-second history could not hold anyway.
- Delay lines of the choruses: the delay modules that chorus/src/chorus.rs and biquad_filter/src/chorus.rs use are not part of this model. The fractional chorus uses the flanger's fractional delay line and the integer chorus uses the phaser's shift-register delay line. chorus/src/chorus.rs passes a third argument, a feedback of zero, to `Delay::new`; the fractional line has no feedback, so it is dropped.
- LFO sample rate: the flanger calls `LFO::set_sample_rate`, which chorus/src/lfo.rs does not define; `Lfo.Lfo.SetSampleRate` is modelled as the field assignment the other effects perform directly.
- Biquad filter: every effect's filter module is modelled by chorus_vst/src/filter.rs.
- Chorus scratch fields: the fractional chorus's scratch fields (`lx`, `loffset*`, `left_out` and their right twins) are locals of the process methods, and the fractional delay line's scratch fields (`read_index`, `read_index_floor`, `read_index_frac`, `output`) are locals of `FractionalDelay.Delay.ProcessSample`, since every call writes them before reading them.
- Per-call precomputation: the phaser computes the designs of one call, and the disperser those of one `set_params`, as a list before running the loop that installs them. The loop then installs them in the same order, and no design depends on a stage's state, so the stages end in the same state.
- Disperser.Disperser.SetParams: the source resets stages only when `amount != self.amount`; the model always runs the reset loop over `amount..old amount`, which is empty whenever the guard would skip it.

Behaviour of the code that a reader may not expect, and that the model reproduces:

- the LFO phase may equal `2π`, because the wrap test is strict;
- resizing the fractional delay line keeps its contents up to the new size and keeps the write cursor, rather than clearing them;
- the mid/side mixer's sides are the full differences `L − R` and `R − L`, not halved;
- in mono mode the flanger advances only the left LFO;
- the disperser silences the stages that a smaller amount deactivates.

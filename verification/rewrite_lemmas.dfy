/** Two facts about the walk: doing it twice is doing it once with the composed
    rewrite, and a result is determined by its erasure and its arguments values. */
module RewriteLemmas {
  import opened Wrappers
  import opened Json
  import opened Generations
  import opened Rewrite

  lemma ToolCallComposes(f: JVal -> JVal, g: JVal -> JVal, h: JVal -> JVal, tc: JVal)
    requires forall v :: h(v) == g(f(v))
    ensures RewriteToolCall(g, RewriteToolCall(f, tc)) == RewriteToolCall(h, tc)
  {
    if CallArguments(tc).Some? {
      var fields := tc.fields;
      var fn := fields[FunctionKey].fields;
      var once := fn[ArgumentsKey := f(fn[ArgumentsKey])];
      assert RewriteToolCall(f, tc) == JObj(fields[FunctionKey := JObj(once)]);
      assert once[ArgumentsKey := g(once[ArgumentsKey])] == fn[ArgumentsKey := h(fn[ArgumentsKey])];
      assert fields[FunctionKey := JObj(once)][FunctionKey := JObj(fn[ArgumentsKey := h(fn[ArgumentsKey])])]
          == fields[FunctionKey := JObj(fn[ArgumentsKey := h(fn[ArgumentsKey])])];
    }
  }

  lemma GenerationComposes(f: JVal -> JVal, g: JVal -> JVal, h: JVal -> JVal, gen: Generation)
    requires forall v :: h(v) == g(f(v))
    ensures RewriteGeneration(g, RewriteGeneration(f, gen)) == RewriteGeneration(h, gen)
  {
    if gen.message.Some? && gen.message.value.additionalKwargs.Some? {
      var kw := gen.message.value.additionalKwargs.value;
      if ToolCallsKey in kw && kw[ToolCallsKey].JArr? && |kw[ToolCallsKey].items| > 0 {
        var calls := kw[ToolCallsKey].items;
        var once := RewriteToolCalls(f, calls);
        forall k | 0 <= k < |calls|
          ensures RewriteToolCall(g, once[k]) == RewriteToolCall(h, calls[k])
        {
          ToolCallComposes(f, g, h, calls[k]);
        }
        assert RewriteToolCalls(g, once) == RewriteToolCalls(h, calls);
        assert RewriteKwargs(f, kw) == kw[ToolCallsKey := JArr(once)];
        assert RewriteKwargs(g, RewriteKwargs(f, kw)) == RewriteKwargs(h, kw);
      }
    }
  }

  /** Rewriting with `f` and then with `g` is rewriting with `g` after `f`. */
  lemma ResultComposes(f: JVal -> JVal, g: JVal -> JVal, h: JVal -> JVal, res: ChatResult)
    requires forall v :: h(v) == g(f(v))
    ensures RewriteResult(g, RewriteResult(f, res)) == RewriteResult(h, res)
  {
    var once := RewriteResult(f, res);
    forall b | 0 <= b < |res.generations|
      ensures RewriteBatch(g, once.generations[b]) == RewriteBatch(h, res.generations[b])
    {
      forall i | 0 <= i < |res.generations[b]|
        ensures RewriteGeneration(g, once.generations[b][i]) == RewriteGeneration(h, res.generations[b][i])
      {
        GenerationComposes(f, g, h, res.generations[b][i]);
      }
    }
  }

  lemma ToolCallDetermined(x: JVal, y: JVal)
    requires RewriteToolCall(Blank, x) == RewriteToolCall(Blank, y)
    requires CallArguments(x) == CallArguments(y)
    ensures x == y
  {
    if CallArguments(x).Some? {
      var mx, my := x.fields, y.fields;
      var fx, fy := mx[FunctionKey].fields, my[FunctionKey].fields;
      var ex := mx[FunctionKey := JObj(fx[ArgumentsKey := JNull])];
      var ey := my[FunctionKey := JObj(fy[ArgumentsKey := JNull])];
      assert JObj(ex) == JObj(ey);
      assert fx[ArgumentsKey := JNull] == fy[ArgumentsKey := JNull] by {
        assert ex[FunctionKey] == ey[FunctionKey];
      }
      forall key | key in fx
        ensures key in fy && fx[key] == fy[key]
      {
        if key != ArgumentsKey {
          assert fx[ArgumentsKey := JNull][key] == fx[key];
        }
      }
      assert fx.Keys == fx[ArgumentsKey := JNull].Keys == fy.Keys;
      assert fx == fy;
      forall key | key in mx
        ensures key in my && mx[key] == my[key]
      {
        if key != FunctionKey {
          assert ex[key] == mx[key];
        }
      }
      assert mx.Keys == ex.Keys == my.Keys;
      assert mx == my;
    }
  }

  lemma GenerationDetermined(x: Generation, y: Generation)
    requires RewriteGeneration(Blank, x) == RewriteGeneration(Blank, y)
    requires forall k: nat :: GenerationArguments(x, k) == GenerationArguments(y, k)
    ensures x == y
  {
    if x.message.Some? && x.message.value.additionalKwargs.Some? {
      var kx := x.message.value.additionalKwargs.value;
      var ky := y.message.value.additionalKwargs.value;
      assert RewriteKwargs(Blank, kx) == RewriteKwargs(Blank, ky);
      var visitX := ToolCallsKey in kx && kx[ToolCallsKey].JArr? && |kx[ToolCallsKey].items| > 0;
      var visitY := ToolCallsKey in ky && ky[ToolCallsKey].JArr? && |ky[ToolCallsKey].items| > 0;
      assert visitX <==> visitY;
      if visitX {
        var ix, iy := kx[ToolCallsKey].items, ky[ToolCallsKey].items;
        assert RewriteToolCalls(Blank, ix) == RewriteToolCalls(Blank, iy) by {
          assert RewriteKwargs(Blank, kx)[ToolCallsKey] == RewriteKwargs(Blank, ky)[ToolCallsKey];
        }
        assert ToolCallsOf(x) == ix && ToolCallsOf(y) == iy;
        forall k | 0 <= k < |ix|
          ensures ix[k] == iy[k]
        {
          assert GenerationArguments(x, k) == GenerationArguments(y, k);
          ToolCallDetermined(ix[k], iy[k]);
        }
        assert ix == iy;
        forall key | key in kx
          ensures key in ky && kx[key] == ky[key]
        {
          if key != ToolCallsKey {
            assert RewriteKwargs(Blank, kx)[key] == kx[key];
          }
        }
        assert kx == ky;
      }
    }
  }

  /** Two results with the same erasure and the same arguments values at every
      position are the same result. */
  lemma ResultDetermined(x: ChatResult, y: ChatResult)
    requires Erase(x) == Erase(y)
    requires forall b: nat, g: nat, k: nat :: ArgumentsAt(x, b, g, k) == ArgumentsAt(y, b, g, k)
    ensures x == y
  {
    forall b | 0 <= b < |x.generations|
      ensures x.generations[b] == y.generations[b]
    {
      assert RewriteBatch(Blank, x.generations[b]) == RewriteBatch(Blank, y.generations[b]) by {
        assert Erase(x).generations[b] == Erase(y).generations[b];
      }
      forall i | 0 <= i < |x.generations[b]|
        ensures x.generations[b][i] == y.generations[b][i]
      {
        forall k: nat
          ensures GenerationArguments(x.generations[b][i], k) == GenerationArguments(y.generations[b][i], k)
        {
          assert ArgumentsAt(x, b, i, k) == ArgumentsAt(y, b, i, k);
        }
        assert RewriteGeneration(Blank, x.generations[b][i]) == RewriteBatch(Blank, x.generations[b])[i];
        assert RewriteGeneration(Blank, y.generations[b][i]) == RewriteBatch(Blank, y.generations[b])[i];
        GenerationDetermined(x.generations[b][i], y.generations[b][i]);
      }
    }
  }
}

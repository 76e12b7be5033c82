/** The model registry and the token budget the slider offers for each model. */
module Models {

  /** The six keys of the `models` table, in the table's insertion order. */
  datatype ModelId =
    | Gemma2_9b
    | Llama33_70b
    | Llama31_8b
    | Llama3_70b
    | Llama3_8b
    | Mixtral
  {
    /** The dictionary key, which is also the identifier sent to the backend. */
    function Key(): (k: string) {
      match this
      case Gemma2_9b => "gemma2-9b-it"
      case Llama33_70b => "llama-3.3-70b-versatile"
      case Llama31_8b => "llama-3.1-8b-instant"
      case Llama3_70b => "llama3-70b-8192"
      case Llama3_8b => "llama3-8b-8192"
      case Mixtral => "mixtral-8x7b-32768"
    }

    /** The `tokens` entry: the largest response budget the model accepts. */
    function Tokens(): (n: nat) {
      match this
      case Gemma2_9b => 8192
      case Llama33_70b => 128000
      case Llama31_8b => 128000
      case Llama3_70b => 8192
      case Llama3_8b => 8192
      case Mixtral => 32768
    }
  }

  /** The select box's options: the table's keys in order. */
  const Options: seq<ModelId> := [Gemma2_9b, Llama33_70b, Llama31_8b, Llama3_70b, Llama3_8b, Mixtral]

  /** The option the select box starts on (index 4). */
  function DefaultOption(): (m: ModelId)
    ensures m in Options && m.Key() == "llama3-8b-8192" && m.Tokens() == 8192
  {
    Options[4]
  }

  /** Every model appears once among the options, and no two options share a key. */
  lemma OptionsAreTheRegistry(m: ModelId, i: int, j: int)
    requires 0 <= i < |Options| && 0 <= j < |Options|
    ensures m in Options
    ensures Options[i].Key() == Options[j].Key() ==> i == j
  {
  }

  const SliderMin := 512
  const SliderStep := 512
  /** The cap the slider's starting value never exceeds. */
  const DefaultCap := 32768

  /** The values the max-tokens slider can take for model `m`:
      from 512 up to the model's `tokens`, in steps of 512. */
  predicate SliderValue(m: ModelId, v: int)
    ensures SliderValue(m, v) ==> v % SliderStep == 0 && v <= 128000
  {
    SliderMin <= v <= m.Tokens() && (v - SliderMin) % SliderStep == 0
  }

  /** The slider's starting value, `min(32768, tokens)`: a value the slider
      can take, never above the model's ceiling, and the cap itself whenever
      the model allows that much. */
  function SliderDefault(m: ModelId): (v: int)
    ensures SliderValue(m, v)
    ensures v <= DefaultCap
    ensures DefaultCap <= m.Tokens() ==> v == DefaultCap
    ensures m.Tokens() < DefaultCap ==> v == m.Tokens()
  {
    if DefaultCap < m.Tokens() then DefaultCap else m.Tokens()
  }

  /** The slider's range is never empty and its top is reachable in steps of 512. */
  lemma CeilingIsSliderValue(m: ModelId)
    ensures SliderValue(m, SliderMin)
    ensures SliderValue(m, m.Tokens())
  {
  }
}

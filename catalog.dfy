/** The model catalog of `src/lib/utils/wllama.ts`: catalog entries and the raw bytes of a model file. */
module Catalog {

  /** One byte of a `.gguf` model file. */
  newtype byte = x: int | 0 <= x < 256

  /** An immutable catalog entry (`ModelInfo`). */
  datatype ModelInfo = ModelInfo(
    id: string,
    name: string,
    description: string,
    modelUrl: string,
    parameters: nat,
    contextLength: nat,
    size: nat,
    license: string,
    author: string)

  /** `AVAILABLE_MODELS`, in catalog order. */
  const AvailableModels: seq<ModelInfo> := [
    ModelInfo(
      "gemma-2b-it-q4_k_m",
      "Gemma 2B Instruct (Q4)",
      "Google's Gemma 2B instruction-tuned model, quantized for efficiency",
      "https://huggingface.co/TheBloke/gemma-2b-it-GGUF/resolve/main/gemma-2b-it-q4_k_m.gguf",
      2000000000, 8192, 1400000000, "Gemma License", "Google"),
    ModelInfo(
      "phi-3-mini-4k-instruct-q4_k_m",
      "Phi-3 Mini 4K Instruct (Q4)",
      "Microsoft's Phi-3 Mini model, optimized for instruction following",
      "https://huggingface.co/TheBloke/phi-3-mini-4k-instruct-GGUF/resolve/main/phi-3-mini-4k-instruct-q4_k_m.gguf",
      3800000000, 4096, 2200000000, "MIT", "Microsoft"),
    ModelInfo(
      "tinyllama-1.1b-chat-v1.0-q4_k_m",
      "TinyLlama 1.1B Chat (Q4)",
      "A small, efficient chat model based on Llama architecture",
      "https://huggingface.co/TheBloke/TinyLlama-1.1B-Chat-v1.0-GGUF/resolve/main/tinyllama-1.1b-chat-v1.0.Q4_K_M.gguf",
      1100000000, 2048, 700000000, "Apache 2.0", "TinyLlama Team"),
    ModelInfo(
      "qwen2.5-0.5b-instruct-q4_k_m",
      "Qwen2.5 0.5B Instruct (Q4)",
      "Alibaba's ultra-compact Qwen2.5 model for fast inference",
      "https://huggingface.co/TheBloke/Qwen2.5-0.5B-Instruct-GGUF/resolve/main/qwen2.5-0.5b-instruct-q4_k_m.gguf",
      500000000, 32768, 300000000, "Qwen License", "Alibaba")
  ]
}

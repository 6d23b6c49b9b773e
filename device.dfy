/** The compute-device check the node performs at startup, before it loads a model or
    offers its action. */
module TtsDevice {
  import opened Wrappers

  datatype Device = Cpu | Cuda

  /** Why the node refuses to start. */
  datatype ConfigError =
    | CudaUnavailable          // raised as RuntimeError
    | UnknownDevice(name: string)  // raised as ValueError

  /** The device parameter's value naming a device. */
  function DeviceName(d: Device): string {
    match d
    case Cpu => "cpu"
    case Cuda => "cuda"
  }

  const CUDA_UNAVAILABLE_MESSAGE := "CUDA is not available, please set device=cpu"
  const UNKNOWN_DEVICE_PREFIX := "Unknown device: "
  const SUPPORTED_DEVICES_SUFFIX := "\nSupported devices: [cpu, cuda]"

  /** The text of the exception raised for a configuration error. */
  function ErrorMessage(e: ConfigError): (m: string)
    ensures e.UnknownDevice? ==> |m| == |UNKNOWN_DEVICE_PREFIX| + |e.name| + |SUPPORTED_DEVICES_SUFFIX|
    ensures e.UnknownDevice? ==> m[..|UNKNOWN_DEVICE_PREFIX|] == UNKNOWN_DEVICE_PREFIX
    ensures e.UnknownDevice? ==> m[|UNKNOWN_DEVICE_PREFIX|..|UNKNOWN_DEVICE_PREFIX| + |e.name|] == e.name
    ensures e.UnknownDevice? ==> m[|UNKNOWN_DEVICE_PREFIX| + |e.name|..] == SUPPORTED_DEVICES_SUFFIX
    ensures e.CudaUnavailable? ==> m == CUDA_UNAVAILABLE_MESSAGE
  {
    match e
    case CudaUnavailable => CUDA_UNAVAILABLE_MESSAGE
    case UnknownDevice(name) => UNKNOWN_DEVICE_PREFIX + name + SUPPORTED_DEVICES_SUFFIX
  }

  /** The device check: "cuda" without an accelerator is refused first, then any name
      other than "cpu" and "cuda". */
  function CheckDevice(name: string, cudaAvailable: bool): (r: Result<Device, ConfigError>)
    ensures r.Success? <==> name == "cpu" || (name == "cuda" && cudaAvailable)
    ensures r.Success? ==> DeviceName(r.value) == name
    ensures r == Failure(CudaUnavailable) <==> name == "cuda" && !cudaAvailable
    ensures r == Failure(UnknownDevice(name)) <==> name != "cpu" && name != "cuda"
  {
    if name == "cuda" && !cudaAvailable then Failure(CudaUnavailable)
    else if name != "cpu" && name != "cuda" then Failure(UnknownDevice(name))
    else if name == "cpu" then Success(Cpu)
    else Success(Cuda)
  }

  /** Naming a device and checking the name gives the device back, unless it is the
      accelerator and none is present. */
  lemma CheckDeviceName(d: Device, cudaAvailable: bool)
    ensures CheckDevice(DeviceName(d), cudaAvailable)
         == if d == Cuda && !cudaAvailable then Failure(CudaUnavailable) else Success(d)
  {
  }

  /** The message a refused start raises: the CUDA text when the accelerator is missing,
      and otherwise the unknown-device text naming the refused value. */
  lemma CheckDeviceMessage(name: string, cudaAvailable: bool)
    ensures CheckDevice(name, cudaAvailable).Failure? ==>
      ErrorMessage(CheckDevice(name, cudaAvailable).error)
        == if name == "cuda" && !cudaAvailable then CUDA_UNAVAILABLE_MESSAGE
           else UNKNOWN_DEVICE_PREFIX + name + SUPPORTED_DEVICES_SUFFIX
  {
  }

  /** Different configuration errors raise different texts, so the refused device name
      can be read back from the message. */
  lemma ErrorMessageInjective(e1: ConfigError, e2: ConfigError)
    ensures ErrorMessage(e1) == ErrorMessage(e2) <==> e1 == e2
  {
  }
}

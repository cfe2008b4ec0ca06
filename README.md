# xpcc core, modelled in Dafny

This project models the core of xpcc, a C++ library for microcontrollers, and
proves properties of the model. It covers two groups of code.

- **The communication message model.** The per-component facade
  (`callAction`, `sendResponse`, `sendNegativeResponse`, `publishEvent`)
  builds each message header. The hosted TCP/IP backend has a `TCPHeader`
  and `Message` frame, and a per-component `Receiver`. The receiver is a
  state machine: it accepts one connection, reads each header and then its
  body, and hands the message to its parent client.
- **Bit-level drivers and example utilities.** These are:
  - the nRF24L01+ physical and data layers;
  - the bit-banged SPI master;
  - the PCA8574 and MCP23x17 I/O expanders;
  - the STM32F1 GPIO mode fields;
  - the SSD1306 display driver;
  - the ENC28J60 pointer bookkeeping;
  - the two SDMMC card drivers of the Nucleo-L476RG SD card examples, with
    the FatFs disk glue;
  - the examples' `UIntToString`, `xorshift32` and file names.

There is one Dafny module per source file. `SdCard` holds what the two SD
drivers share, and `Ints` holds the fixed-width integer types. Hardware is
an environment:
- a bus's replies are a function from the exchange number to the reply;
- whether an I2C transaction succeeds is a parameter;
- the bytes and commands a driver sends are logged in sequence fields.

A state that the source updates in place is a `class` with `modifies`
clauses. Loops are `while` loops with invariants, proved against
specification functions. The version 2.0 CSD decode follows section 5.3.3
of the SD Physical Layer Simplified Specification.

## Model

| member | source | states |
|---|---|---|
| Communication.ActionHeaderIsAction | src/xpcc/communication/communication_impl.hpp:40-46 | an action call's header is addressed to the receiver, comes from the caller, carries the action identifier and no acknowledge request; it reads as an action exactly when the receiver is non-zero, and with receiver 0 it equals an event header |
| Communication.EventHeaderIsEvent | src/xpcc/communication/communication_impl.hpp:110-116 | an event header is a broadcast (destination 0) from the publisher under the event identifier, without acknowledge |
| Communication.ResponseCorrelation | src/xpcc/communication/communication_impl.hpp:74-98 | a response and a negative response to a request go back to the requester's source, reuse its packet identifier and name the answering component as source |
| Communication.NegativeDiffersOnlyInType | src/xpcc/communication/communication_impl.hpp:76-98 | the negative response to a handle differs from the positive one in its header type only |
| Communication.Backend.SendPacket | src/xpcc/communication/communication_impl.hpp:50 | the backend's log grows by exactly the (header, payload) pair handed over |
| Communication.Facade.CallAction | src/xpcc/communication/communication_impl.hpp:38-51 | exactly one packet is handed over: REQUEST, no acknowledge, to the receiver, from the current component, under the action identifier, with the data |
| Communication.Facade.CallActionWithCallback | src/xpcc/communication/communication_impl.hpp:54-69 | the overload with a callback hands over the same single packet as the one without |
| Communication.Facade.SendResponse | src/xpcc/communication/communication_impl.hpp:72-87 | exactly one RESPONSE packet to the handle's source under the handle's packet identifier |
| Communication.Facade.SendNegativeResponse | src/xpcc/communication/communication_impl.hpp:90-105 | exactly one NEGATIVE_RESPONSE packet to the handle's source under the handle's packet identifier |
| Communication.Facade.PublishEvent | src/xpcc/communication/communication_impl.hpp:108-120 | exactly one REQUEST packet to destination 0 under the event identifier |
| Communication.FacadeCallsNeverAcknowledge | src/xpcc/communication/communication_impl.hpp:40-119 | one call of each facade method, in order (callAction, callAction with callback, sendResponse, sendNegativeResponse, publishEvent), hands over five packets, every one naming the component as source and none asking for an acknowledge |
| TcpipMessage.DataSize | src/xpcc/architecture/platform/driver/tcpip/hosted/tcpip_message.cpp:40-44 | `getDataSize()` is the `int` length narrowed to `uint8_t`: the length modulo 256 |
| TcpipMessage.MessageLength | src/xpcc/architecture/platform/driver/tcpip/hosted/tcpip_message.cpp:106-110 | the frame length is the header size plus the narrowed data size, so never more than header size + 255 |
| TcpipMessage.DataSizeOfPayload | src/xpcc/architecture/platform/driver/tcpip/hosted/tcpip_message.cpp:53-56 | a payload of `n` bytes announces `n` modulo 256, which is the whole payload exactly when `n < 256` |
| TcpipMessage.LE32RoundTrip | src/xpcc/architecture/platform/driver/tcpip/hosted/tcpip_message.cpp:77 | the four bytes of the length field read back as the 32-bit value written |
| TcpipMessage.EncodeHeader | src/xpcc/architecture/platform/driver/tcpip/hosted/tcpip_message.cpp:77-87 | the header bytes the frame starts with are exactly `headerSize()` long |
| TcpipMessage.HeaderRoundTrip | src/xpcc/architecture/platform/driver/tcpip/hosted/tcpip_message.cpp:77-87 | the header bytes decode back to the same TCPHeader, and the length byte a receiver reads from them is `getDataSize()`, and bytes 1 to 5 read back as the embedded xpcc header (also tcpip_message.cpp:40-44) |
| TcpipMessage.Int32Bits | src/xpcc/architecture/platform/driver/tcpip/hosted/tcpip_message.cpp:40-44 | the 32-bit pattern of the signed length reads back as the same value, and its low byte is the value's low byte |
| TcpipMessage.Frame | src/xpcc/architecture/platform/driver/tcpip/hosted/tcpip_message.cpp:73-98 | the encoded frame is `getMessageLength()` bytes: header bytes then the announced number of payload bytes |
| TcpipMessage.FrameRoundTrip | src/xpcc/architecture/platform/driver/tcpip/hosted/tcpip_message.cpp:53-56 | splitting a data message's frame at the header size gives back its header, a length that spans the rest of the frame, and the payload cut to its length modulo 256; the whole payload arrives exactly when it is shorter than 256 bytes (also tcpip_message.cpp:73-98) |
| TcpipMessage.Message.constructor | src/xpcc/architecture/platform/driver/tcpip/hosted/tcpip_message.cpp:18-56 | a DATA message whose length field is the payload size as `int` |
| TcpipMessage.Message.Typed | src/xpcc/architecture/platform/driver/tcpip/hosted/tcpip_message.cpp:23-61 | a message of the given type whose length field is the payload size |
| TcpipMessage.Message.Register | src/xpcc/architecture/platform/driver/tcpip/hosted/tcpip_message.cpp:63-66 | a REGISTER message with length 0, no payload and the identifier as source (also tcpip_message.cpp:12-16) |
| TcpipMessage.Message.Copy | src/xpcc/architecture/platform/driver/tcpip/hosted/tcpip_message.cpp:68-71 | the copy has the same header and payload |
| TcpipMessage.Message.GetMessageLength | src/xpcc/architecture/platform/driver/tcpip/hosted/tcpip_message.cpp:106-110 | the header size plus the data size, never more than the largest message, and exactly the length of the frame encodeMessage lays out whenever the data holds dataSize bytes |
| TcpipMessage.Message.EncodeMessage | src/xpcc/architecture/platform/driver/tcpip/hosted/tcpip_message.cpp:73-98 | after the three loops the first `getMessageLength()` bytes of the storage are the frame (header bytes, then the announced payload prefix, zeros when the size is 0) and nothing after them changed |
| TcpipReceiver.DeliveredHeader | src/xpcc/architecture/platform/driver/tcpip/hosted/tcpip_receiver.cpp:103-107 | the header of a delivered message exists exactly when the received bytes hold an xpcc header, and it is then a fresh DATA header around that xpcc header whose length is the size of the received body (also tcpip_message.cpp:53-56, tcpip_message.cpp:17-20) |
| TcpipReceiver.ParseFromSuffix | src/xpcc/architecture/platform/driver/tcpip/hosted/tcpip_receiver.cpp:35-51 | reading frames from an offset does not depend on the bytes before it |
| TcpipReceiver.ParseBodiesShort | src/xpcc/architecture/platform/driver/tcpip/hosted/tcpip_receiver.cpp:43-51 | no frame carries more body bytes than a `uint8_t` data size announces, so every delivered body is shorter than 256 bytes (also tcpip_message.cpp:40-44) |
| TcpipReceiver.Expected | src/xpcc/architecture/platform/driver/tcpip/hosted/tcpip_receiver.cpp:98-108 | one delivery per sent message |
| TcpipReceiver.ExpectedDelivers | src/xpcc/architecture/platform/driver/tcpip/hosted/tcpip_receiver.cpp:98-108 | the message delivered for each sent message is a DATA message with the sent xpcc header and a length equal to the number of body bytes `getDataSize()` announced (also tcpip_message.cpp:17-20, tcpip_message.cpp:53-56) |
| TcpipReceiver.ParseStream | src/xpcc/architecture/platform/driver/tcpip/hosted/tcpip_receiver.cpp:35-51 | the frames read back from a stream of encoded messages are exactly one frame per sent message, in order: its header bytes and its first `getDataSize()` payload bytes (also tcpip_receiver.cpp:85-111) |
| TcpipReceiver.Receiver.constructor | src/xpcc/architecture/platform/driver/tcpip/hosted/tcpip_receiver.cpp:20-33 | a receiver listens on server port + 1 + component id, neither connected nor shut down, waiting for the connection |
| TcpipReceiver.Receiver.AcceptHandler | src/xpcc/architecture/platform/driver/tcpip/hosted/tcpip_receiver.cpp:53-66 | a successful accept connects the receiver; an error puts it in a terminal phase where it never connects; no read is issued either way |
| TcpipReceiver.Receiver.ReadHeader | src/xpcc/architecture/platform/driver/tcpip/hosted/tcpip_receiver.cpp:35-41 | one read of exactly `headerSize()` bytes is issued |
| TcpipReceiver.Receiver.Run | src/xpcc/architecture/platform/driver/tcpip/hosted/tcpip_receiver.cpp:68-83 | once connected, the first header read is issued (and the loop ends); before that, and always after a failed accept, nothing happens |
| TcpipReceiver.Receiver.ReadHeaderHandler | src/xpcc/architecture/platform/driver/tcpip/hosted/tcpip_receiver.cpp:85-96 | a completed header read issues a body read of exactly the header's data size; an error or end of stream issues nothing, and at end of stream every complete frame has been delivered (also tcpip_receiver.cpp:43-51) |
| TcpipReceiver.Receiver.ReadMessageHandler | src/xpcc/architecture/platform/driver/tcpip/hosted/tcpip_receiver.cpp:98-135 | a completed body read delivers exactly one message, the header buffer and the body read, and issues the next header read, or closes when shutdown was requested; an error delivers nothing and issues nothing |
| TcpipReceiver.Receiver.Deliver | src/xpcc/architecture/platform/driver/tcpip/hosted/tcpip_receiver.cpp:103-130 | the message made of the header buffer and the body read is appended to what was delivered, and the next header read is issued unless shutdown was requested, in which case the socket is closed |
| TcpipReceiver.Receiver.ShutdownCommand | src/xpcc/architecture/platform/driver/tcpip/hosted/tcpip_receiver.cpp:143-147 | the shutdown flag is set and nothing else changes; the receiver's invariant is kept |
| TcpipReceiver.Receiver.Drain | src/xpcc/architecture/platform/driver/tcpip/hosted/tcpip_receiver.cpp:85-135 | serving an error-free connection until its stream ends delivers exactly the complete frames of the stream, in order, each body shorter than 256 bytes and each delivered DATA header announcing its body's length |
| SoftwareSpi.ReceivedBits | src/xpcc/architecture/platform/peripheral/spi/software/simple_spi_impl.hpp:80-88 | each of the eight MISO samples lands in the bit the bit order gives it: sample `k` in bit `k` LSB first, in bit `7 - k` MSB first |
| SoftwareSpi.Loopback | src/xpcc/architecture/platform/peripheral/spi/software/simple_spi_impl.hpp:59-88 | when every MISO sample is the MOSI level just sent, the byte received is the byte sent, in either bit order |
| SoftwareSpi.LsbPartialBit | src/xpcc/architecture/platform/peripheral/spi/software/simple_spi_impl.hpp:60-82 | LSB first, after `n` samples the samples sit in the top `n` bits of the input, the first lowest |
| SoftwareSpi.LsbPartialComplete | src/xpcc/architecture/platform/peripheral/spi/software/simple_spi_impl.hpp:53-98 | after eight LSB-first samples the shifted input is the received byte |
| SoftwareSpi.Pulses | src/xpcc/architecture/platform/peripheral/spi/software/simple_spi_impl.hpp:74-95 | `n` clock pulses are `2n` SCK levels |
| SoftwareSpi.MosiStream | src/xpcc/architecture/platform/peripheral/spi/software/simple_spi_impl.hpp:115-122 | eight MOSI levels per byte sent |
| SoftwareSpi.MosiBitIs | src/xpcc/architecture/platform/peripheral/spi/software/simple_spi_impl.hpp:60-87 | the `j`-th MOSI level, taken from the shifted data byte, is bit `j` of the byte LSB first and bit `7 - j` MSB first |
| SoftwareSpi.MosiBitsAt | src/xpcc/architecture/platform/peripheral/spi/software/simple_spi_impl.hpp:53-96 | the `j`-th bit a byte puts on MOSI is its bit `j` LSB first, bit `7 - j` MSB first |
| SoftwareSpi.MosiBits | src/xpcc/architecture/platform/peripheral/spi/software/simple_spi_impl.hpp:53-96 | a byte puts exactly eight levels on MOSI |
| SoftwareSpi.SimpleMaster.constructor | src/xpcc/architecture/platform/peripheral/spi/software/simple_spi_impl.hpp:14-15 | the operation mode starts at 0 (mode 0, MSB first) |
| SoftwareSpi.SimpleMaster.ReceivedStream | src/xpcc/architecture/platform/peripheral/spi/software/simple_spi_impl.hpp:115-122 | one received byte per exchange |
| SoftwareSpi.SimpleMaster.ReceivedStreamAt | src/xpcc/architecture/platform/peripheral/spi/software/simple_spi_impl.hpp:115-122 | byte `k` of a transfer is assembled from samples `8k` to `8k + 7` |
| SoftwareSpi.SimpleMaster.LsbInputIs | src/xpcc/architecture/platform/peripheral/spi/software/simple_spi_impl.hpp:60-82 | the LSB-first input after `n` steps is the partial byte of the first `n` samples |
| SoftwareSpi.SimpleMaster.MsbInputIs | src/xpcc/architecture/platform/peripheral/spi/software/simple_spi_impl.hpp:64-86 | the MSB-first input after `n` steps is the byte of the first `n` samples, most significant first |
| SoftwareSpi.SimpleMaster.Initialize | src/xpcc/architecture/platform/peripheral/spi/software/simple_spi_impl.hpp:19-26 | SCK and MOSI are driven low; the mode is unchanged |
| SoftwareSpi.SimpleMaster.SetDataMode | src/xpcc/architecture/platform/peripheral/spi/software/simple_spi_impl.hpp:28-34 | only the two data-mode bits change, to the new mode, and SCK goes to the new polarity's idle level |
| SoftwareSpi.SimpleMaster.SetDataOrder | src/xpcc/architecture/platform/peripheral/spi/software/simple_spi_impl.hpp:36-44 | only bit 2 changes: set exactly for LSB first |
| SoftwareSpi.SimpleMaster.WriteReadBlocking | src/xpcc/architecture/platform/peripheral/spi/software/simple_spi_impl.hpp:47-99 | one exchange: eight clock pulses ending at the idle level, the byte's bits on MOSI in the configured order, and the return value assembled from the next eight MISO samples in the same order |
| SoftwareSpi.SimpleMaster.ExchangeLsbFirst | src/xpcc/architecture/platform/peripheral/spi/software/simple_spi_impl.hpp:53-96 | the loop LSB first: the input is the shifted-in samples, the MOSI levels are the data shifted right, the clock pulses eight times |
| SoftwareSpi.SimpleMaster.ExchangeMsbFirst | src/xpcc/architecture/platform/peripheral/spi/software/simple_spi_impl.hpp:53-96 | the loop MSB first: the input is the shifted-in samples, the MOSI levels are the data shifted left, the clock pulses eight times |
| SoftwareSpi.SimpleMaster.MsbStep | src/xpcc/architecture/platform/peripheral/spi/software/simple_spi_impl.hpp:64-87 | one MSB-first turn: input shifted left with the sample in bit 0, bit 7 of the data out, data shifted left |
| SoftwareSpi.SimpleMaster.LsbStep | src/xpcc/architecture/platform/peripheral/spi/software/simple_spi_impl.hpp:60-83 | one LSB-first turn: input shifted right with the sample in bit 7, bit 0 of the data out, data shifted right |
| SoftwareSpi.SimpleMaster.ClockCycle | src/xpcc/architecture/platform/peripheral/spi/software/simple_spi_impl.hpp:62-95 | one bit: the level on MOSI, SCK to the active level, one MISO sample, SCK back to idle |
| SoftwareSpi.SimpleMaster.TransferBlocking | src/xpcc/architecture/platform/peripheral/spi/software/simple_spi_impl.hpp:108-123 | `length` exchanges: MOSI carries `tx[0..length)`, or 0xff bytes without a transmit buffer; the first `length` places of `rx` receive the exchanged bytes when there is a receive buffer and the rest of it is unchanged |
| SoftwareSpi.SimpleMaster.TransferLoop | src/xpcc/architecture/platform/peripheral/spi/software/simple_spi_impl.hpp:112-122 | the loop: each place `k < length` of `rx` holds the byte of exchange `k`, nothing after them changes |
| SoftwareSpi.SimpleMaster.TransferStep | src/xpcc/architecture/platform/peripheral/spi/software/simple_spi_impl.hpp:117-121 | one turn: the byte sent is `tx[i]` or the previous one without a transmit buffer, and only `rx[i]` changes, to the byte received |
| SoftwareSpi.Fill | src/xpcc/architecture/platform/peripheral/spi/software/simple_spi_impl.hpp:112 | without a transmit buffer every byte sent is 0xff |
| Pca8574.SetBits | src/xpcc/driver/gpio/pca8574_impl.hpp:29 | the bits of the mask become 1 and no other bit changes (also src/xpcc/driver/gpio/pca8574_impl.hpp:82) |
| Pca8574.ClearBits | src/xpcc/driver/gpio/pca8574_impl.hpp:42-80 | the bits of the mask become 0 and no other bit changes |
| Pca8574.ToggleBits | src/xpcc/driver/gpio/pca8574_impl.hpp:55 | exactly the bits of the mask flip |
| Pca8574.UpdateBits | src/xpcc/driver/gpio/pca8574_impl.hpp:68 | the bits of the mask take the value and no other bit changes |
| Pca8574.ToggleTwice | src/xpcc/driver/gpio/pca8574_impl.hpp:47-58 | toggling the same pins twice restores the output byte |
| Pca8574.SetClearIdempotent | src/xpcc/driver/gpio/pca8574_impl.hpp:21-45 | setting set pins again, or clearing cleared pins again, changes nothing |
| Pca8574.Expander.constructor | src/xpcc/driver/gpio/pca8574_impl.hpp:14-19 | all pins are outputs driven high and the input shadow is 0xff |
| Pca8574.Expander.WritePort | src/xpcc/driver/gpio/pca8574_impl.hpp:87-97 | the output shadow becomes the value, which is the one byte written; the result is the transaction's |
| Pca8574.Expander.Set | src/xpcc/driver/gpio/pca8574_impl.hpp:21-32 | the pins go high whatever their direction, and the new output byte is written |
| Pca8574.Expander.Reset | src/xpcc/driver/gpio/pca8574_impl.hpp:34-45 | only pins configured as outputs go low, and the new output byte is written |
| Pca8574.Expander.Toggle | src/xpcc/driver/gpio/pca8574_impl.hpp:47-58 | only pins configured as outputs flip, and the new output byte is written |
| Pca8574.Expander.SetValue | src/xpcc/driver/gpio/pca8574_impl.hpp:60-71 | only pins configured as outputs take the value, and the new output byte is written |
| Pca8574.Expander.SetInput | src/xpcc/driver/gpio/pca8574_impl.hpp:73-85 | the pins stop being outputs and are driven high, and the new output byte is written |
| Pca8574.Expander.ReadPort | src/xpcc/driver/gpio/pca8574_impl.hpp:99-113 | a successful read stores the byte in the input shadow and in the caller's value; a failed one leaves the caller's value alone; nothing is written |
| Pca8574.InputsStayHigh | src/xpcc/driver/gpio/pca8574_impl.hpp:36-85 | after `setInput(pins)`, later `reset`, `toggle` and `set(pins, value)` calls leave those pins high, since they act on outputs only |
| Mcp23x17.PortBIsHighByte | src/xpcc/driver/gpio/mcp23x17.hpp:59-79 | pin x of port A is bit x of the 16-bit pin set and pin x of port B is bit 8+x, so GPB is the high byte |
| Mcp23x17.PinMaskInjective | src/xpcc/driver/gpio/mcp23x17.hpp:59-79 | two different pins never share a bit of the pin set |
| Mcp23x17.PinMaskSingleBit | src/xpcc/driver/gpio/mcp23x17.hpp:59-79 | every pin is exactly one bit of the pin set |
| Mcp23x17.FreshMemory | src/xpcc/driver/gpio/mcp23x17.hpp:131-166 | on the fresh shadow every pin reads as input, not set and low, and getDirections is 0 (also src/xpcc/driver/gpio/mcp23x17.hpp:183-185, src/xpcc/driver/gpio/mcp23x17.hpp:196-208) |
| Mcp23x17.JoinSplit | src/xpcc/driver/gpio/mcp23x17.hpp:224-228 | a 16-bit register is its low byte followed by its high byte |
| Mcp23x17.SplitJoin | src/xpcc/driver/gpio/mcp23x17.hpp:224-228 | joining two bytes and splitting them again gives back both bytes |
| Mcp23x17.Serialize | src/xpcc/driver/gpio/mcp23x17.hpp:224-228 | the byte view of the register file is 22 bytes long |
| Mcp23x17.ParseSerialize | src/xpcc/driver/gpio/mcp23x17.hpp:193-228 | reading the register file back from its 22-byte view gives the same registers |
| Mcp23x17.LowByteAt | src/xpcc/driver/gpio/mcp23x17.hpp:25-39 | the byte at a register's address is the low byte of that register's field (also src/xpcc/driver/gpio/mcp23x17.hpp:210-221) |
| Mcp23x17.HighByteAt | src/xpcc/driver/gpio/mcp23x17.hpp:25-39 | the byte after a register's address is the high byte of that register's field (also src/xpcc/driver/gpio/mcp23x17.hpp:210-221) |
| Mcp23x17.LayoutMatchesRegisters | src/xpcc/driver/gpio/mcp23x17.hpp:25-39 | in the 22-byte view, each register address holds the low byte and the next address the high byte of the field the enum names (also src/xpcc/driver/gpio/mcp23x17.hpp:193-228) |
| Mcp23x17.ReadInputStart | src/xpcc/driver/gpio/mcp23x17.hpp:169-171 | reading 8 bytes from INTF at buffer offset 14 covers exactly INTF, INTCAP, GPIO and OLAT |
| Mcp23x17.ReadInput | src/xpcc/driver/gpio/mcp23x17.hpp:169-171 | the 8 bytes read replace the interrupt flag, interrupt capture, port and output latch registers, little-endian, and nothing else |
| Mcp23x17.ComplementBit | src/xpcc/driver/gpio/mcp23x17.hpp:183-185 | a bit of the complemented direction register is set exactly when the direction bit is clear |
| Mcp23x17.GettersAgree | src/xpcc/driver/gpio/mcp23x17.hpp:131-143 | the single-pin getters agree with the 16-bit getters: a pin is Out exactly when its getDirections bit is 1, set exactly when its getOutputs bit is 1, high exactly when its getInputs bit is 1 (also src/xpcc/driver/gpio/mcp23x17.hpp:161-189) |
| Ints.ToInt32 | src/xpcc/architecture/platform/driver/tcpip/hosted/tcpip_message.cpp:54 | the narrowing to a 32-bit signed int keeps the value modulo 2^32 and is the identity on non-negative values below 2^31 |
| Ints.ToUint8 | src/xpcc/architecture/platform/driver/tcpip/hosted/tcpip_message.cpp:40-44 | the narrowing to uint8_t keeps the value modulo 256 and is the identity below 256 |
| Ints.ToUint16 | examples/stm32f4_discovery/ethernet/enc28j60/enc28j60_impl.hpp:159-194 | the store into a uint16_t keeps the value modulo 2^16 and is the identity below 2^16 |
| Ints.ToUint32 | examples/nucleo_l476rg/sdio_2/sdio1.cpp:301 | the store into a uint32_t keeps the value modulo 2^32 and is the identity below 2^32 (also examples/nucleo_l476rg/sdio/sdio1.h:288) |
| Nrf24Phy.Split | src/xpcc/driver/radio/nrf24/nrf24_phy_impl.hpp:244-248 | the assembly loop yields exactly n bytes, least significant first |
| Nrf24Phy.AddressBytes | src/xpcc/driver/radio/nrf24/nrf24_phy_impl.hpp:241-272 | an address register image is address_size (5) bytes |
| Nrf24Phy.Zeros | src/xpcc/driver/radio/nrf24/nrf24_phy_impl.hpp:71-76 | with no argument buffer every data byte sent is 0 |
| Nrf24Phy.AddressRoundTrip | src/xpcc/driver/radio/nrf24/nrf24_phy_impl.hpp:244-248 | splitting an address into register bytes and reassembling them gives the address modulo 2^40: the upper three bytes are dropped (also src/xpcc/driver/radio/nrf24/nrf24_phy_impl.hpp:293-299) |
| Nrf24Phy.JoinThenSplit | src/xpcc/driver/radio/nrf24/nrf24_phy_impl.hpp:293-299 | any five register bytes reassemble into an address below 2^40 that splits back into the same bytes (also src/xpcc/driver/radio/nrf24/nrf24_phy_impl.hpp:244-248) |
| Nrf24Phy.Phy.constructor | src/xpcc/driver/radio/nrf24/nrf24_phy_impl.hpp:17-21 | the driver starts with the given static payload length, an empty bus log and no exchanges |
| Nrf24Phy.Phy.WriteCommandNoData | src/xpcc/driver/radio/nrf24/nrf24_phy_impl.hpp:26-35 | one exchange: the command is logged and its reply becomes the status |
| Nrf24Phy.Phy.WriteCommandSingleData | src/xpcc/driver/radio/nrf24/nrf24_phy_impl.hpp:39-52 | two exchanges: the command's reply becomes the status and the data byte's reply is returned |
| Nrf24Phy.Phy.Exchange | src/xpcc/driver/radio/nrf24/nrf24_phy_impl.hpp:78 | one byte clocked over the bus returns the chip's next reply and changes nothing else |
| Nrf24Phy.Phy.WriteCommandMultiData | src/xpcc/driver/radio/nrf24/nrf24_phy_impl.hpp:59-87 | 1+argc exchanges: the bytes sent are argv's first argc bytes (zeros without argv), retv's first argc bytes become the replies and the rest of retv is untouched |
| Nrf24Phy.Phy.ExchangeData | src/xpcc/driver/radio/nrf24/nrf24_phy_impl.hpp:67-84 | the data loop sends argv[i] or 0 and stores each reply into retv[i] when retv is given |
| Nrf24Phy.Phy.ReadRegisterValue | src/xpcc/driver/radio/nrf24/nrf24_phy_impl.hpp:92-97 | an R_REGISTER command with a 0 data byte whose reply is the register value; the command byte's reply becomes the status and the payload length is kept |
| Nrf24Phy.Phy.WriteRegisterValue | src/xpcc/driver/radio/nrf24/nrf24_phy_impl.hpp:101-106 | a W_REGISTER command followed by the data byte; the command byte's reply becomes the status |
| Nrf24Phy.Phy.SetBits | src/xpcc/driver/radio/nrf24/nrf24_phy_impl.hpp:110-117 | the register is read, then written with the value read OR flags; the status is the reply to the write command |
| Nrf24Phy.Phy.ClearBits | src/xpcc/driver/radio/nrf24/nrf24_phy_impl.hpp:121-128 | the register is read, then written with the value read AND NOT flags; the status is the reply to the write command |
| Nrf24Phy.Phy.FlushTxFifo | src/xpcc/driver/radio/nrf24/nrf24_phy_impl.hpp:132-137 | exactly one FLUSH_TX command is sent, its reply becomes the status and the payload length is kept |
| Nrf24Phy.Phy.FlushRxFifo | src/xpcc/driver/radio/nrf24/nrf24_phy_impl.hpp:141-146 | exactly one FLUSH_RX command is sent, its reply becomes the status and the payload length is kept |
| Nrf24Phy.Phy.ReuseTxPayloadCommand | src/xpcc/driver/radio/nrf24/nrf24_phy_impl.hpp:213-218 | exactly one REUSE_TX_PL command is sent, its reply becomes the status and the payload length is kept |
| Nrf24Phy.Phy.ReadRxPayloadWidthValue | src/xpcc/driver/radio/nrf24/nrf24_phy_impl.hpp:150-155 | an R_RX_PL_WID command whose data reply is returned; the command's reply becomes the status |
| Nrf24Phy.Phy.ReadRxPayloadInto | src/xpcc/driver/radio/nrf24/nrf24_phy_impl.hpp:159-175 | returns the static payload length, or with a payload length of 0 the width the chip reports; reads that many replies into the buffer and leaves the rest of it unchanged; takes 1 + n exchanges, or 3 + n with the width query first, and the status is the reply to R_RX_PAYLOAD |
| Nrf24Phy.Phy.WriteTxPayloadFrom | src/xpcc/driver/radio/nrf24/nrf24_phy_impl.hpp:179-187 | a payload longer than the payload length is dropped without bus traffic and the status kept; otherwise W_TX_PAYLOAD sends the buffer's first len bytes in 1 + len exchanges and its reply becomes the status |
| Nrf24Phy.Phy.WriteTxPayloadNoAckFrom | src/xpcc/driver/radio/nrf24/nrf24_phy_impl.hpp:191-198 | the same as writeTxPayload with W_TX_PAYLOAD_NOACK, with the same exchange count and status |
| Nrf24Phy.Phy.WriteAckPayloadFrom | src/xpcc/driver/radio/nrf24/nrf24_phy_impl.hpp:202-209 | the same as writeTxPayload with W_ACK_PAYLOAD for the given pipe, with the same exchange count and status |
| Nrf24Phy.Phy.ReadStatus | src/xpcc/driver/radio/nrf24/nrf24_phy_impl.hpp:222-229 | a NOP is sent, its reply is returned and kept as the status, and the payload length is kept |
| Nrf24Phy.Phy.SplitAddress | src/xpcc/driver/radio/nrf24/nrf24_phy_impl.hpp:241-272 | the address array holds the address's bytes, least significant first |
| Nrf24Phy.Phy.JoinAddress | src/xpcc/driver/radio/nrf24/nrf24_phy_impl.hpp:293-332 | the do-while loop reassembles the five bytes read, most significant first, into Join of them |
| Nrf24Phy.Phy.SetRxAddress | src/xpcc/driver/radio/nrf24/nrf24_phy_impl.hpp:233-258 | pipes 0 and 1 get the five address bytes in 1 + 5 exchanges, pipes 2 to 5 the low byte only in 2, other pipes nothing and keep the status; the status is the reply to W_REGISTER |
| Nrf24Phy.Phy.SetTxAddress | src/xpcc/driver/radio/nrf24/nrf24_phy_impl.hpp:262-275 | TX_ADDR gets the five address bytes in 1 + 5 exchanges and the status is the reply to W_REGISTER |
| Nrf24Phy.Phy.GetRxAddress | src/xpcc/driver/radio/nrf24/nrf24_phy_impl.hpp:279-312 | pipes 0 and 1 return the five bytes read back joined, pipes 2 to address_size (5) the one register byte, any other pipe 0 without bus traffic and with the status kept |
| Nrf24Phy.Phy.GetTxAddress | src/xpcc/driver/radio/nrf24/nrf24_phy_impl.hpp:316-335 | the five TX_ADDR bytes read back, joined, in 1 + 5 exchanges, with the status the reply to R_REGISTER |
| Nrf24Data.FrameBytes | src/xpcc/driver/radio/nrf24/nrf24_data.hpp:85-97 | a packed frame is 32 bytes: source, destination, then the 30 data bytes |
| Nrf24Data.ParseFrame | src/xpcc/driver/radio/nrf24/nrf24_data.hpp:93-97 | a received 32-byte frame reads as a header and 30 data bytes |
| Nrf24Data.FrameLayout | src/xpcc/driver/radio/nrf24/nrf24_data.hpp:85-97 | packing then reading a frame, and reading then packing 32 bytes, are both the identity |
| Nrf24Data.NewPacket | src/xpcc/driver/radio/nrf24/nrf24_data.hpp:65-71 | a new packet is addressed to 0 from 0 and its payload length is the PHY's maximum payload |
| Nrf24Data.PayloadLength | src/xpcc/driver/radio/nrf24/nrf24_data.hpp:165-167 | the user payload length is the PHY payload length less the 2-byte header, wrapping in uint8_t below 2 |
| Nrf24Data.PayloadFillsFrame | src/xpcc/driver/radio/nrf24/nrf24_data.hpp:96 | with a 32-byte PHY payload the user payload is exactly the 30 data bytes of a frame (also src/xpcc/driver/radio/nrf24/nrf24_data.hpp:165-167) |
| Nrf24Data.AssembleAddressLowByte | src/xpcc/driver/radio/nrf24/nrf24_data.hpp:186-205 | with a base address whose last byte is free, the radio address carries the node address in its last byte |
| Nrf24Data.AssembleAddressHighBytes | src/xpcc/driver/radio/nrf24/nrf24_data.hpp:186-205 | the radio address keeps the base address in every byte above the last |
| Nrf24Data.AssembleAddressInjective | src/xpcc/driver/radio/nrf24/nrf24_data.hpp:186-205 | with a base address whose last byte is free, distinct node addresses give distinct radio addresses |
| Nrf24Data.DataLayer.constructor | src/xpcc/driver/radio/nrf24/nrf24_data.hpp:221 | the packet-processed flag starts false |
| Nrf24Data.DataLayer.IsPacketProcessed | src/xpcc/driver/radio/nrf24/nrf24_data.hpp:127-140 | reports the flag and clears it |
| Nrf24Data.AtMostOncePerPacket | src/xpcc/driver/radio/nrf24/nrf24_data.hpp:127-140 | asking twice without a new packet being processed answers true at most once |
| Stm32Gpio.ToFieldWithin | src/xpcc/architecture/platform/cortex_m3/stm32/gpio.hpp:92-103 | a mode below 16 shifted to pin n's position stays inside that pin's 4-bit field |
| Stm32Gpio.ToFieldInjective | src/xpcc/architecture/platform/cortex_m3/stm32/gpio.hpp:92-103 | two different modes below 16 shift to different field contents |
| Stm32Gpio.ClearThenOr | src/xpcc/architecture/platform/cortex_m3/stm32/gpio.hpp:93-102 | clearing a mask and or-ing in bits within it leaves exactly those bits under the mask and the rest as it was |
| Stm32Gpio.SetFieldMasks | src/xpcc/architecture/platform/cortex_m3/stm32/gpio.hpp:90-104 | setMode with a value that fits the field writes that value into the field and keeps every other bit of the register |
| Stm32Gpio.SetFieldOnlyField | src/xpcc/architecture/platform/cortex_m3/stm32/gpio.hpp:90-104 | setMode with a mode below 16 makes the pin's field hold that mode and no other mode, and changes no other field |
| Stm32Gpio.SetFieldSpills | src/xpcc/architecture/platform/cortex_m3/stm32/gpio.hpp:92-103 | setMode does not mask its argument: 0x13 written to pin 0 also sets a bit of pin 1's field |
| Stm32Gpio.SetModeEffect | src/xpcc/architecture/platform/cortex_m3/stm32/gpio.hpp:90-104 | after setMode for pins 0-7 (CRL) or 8-15 (CRH) the pin's field holds the mode and nothing else in CRL or CRH changed |
| Stm32Gpio.OutputConfig | src/xpcc/architecture/platform/cortex_m3/stm32/gpio.hpp:120 | mode, type and speed combine into a 4-bit field value (also src/xpcc/architecture/platform/cortex_m3/stm32/gpio.hpp:192) |
| Stm32Gpio.OutputConfigDecodes | src/xpcc/architecture/platform/cortex_m3/stm32/gpio.hpp:71-88 | the default output is field value 0x3, and different (mode, type, speed) triples give different field values (also src/xpcc/architecture/platform/cortex_m3/stm32/gpio.hpp:117-120, src/xpcc/architecture/platform/cortex_m3/stm32/gpio.hpp:189-192) |
| Stm32Gpio.InputConfig | src/xpcc/architecture/platform/cortex_m3/stm32/gpio.hpp:234-236 | an input configuration is a 4-bit field value |
| Stm32Gpio.InputConfigValues | src/xpcc/architecture/platform/cortex_m3/stm32/gpio.hpp:58-69 | floating input is 0x4, pull-up and pull-down input are 0x8, analog is 0 (also src/xpcc/architecture/platform/cortex_m3/stm32/gpio.hpp:234-236) |
| Stm32Gpio.IoInputConfigIsAnalog | src/xpcc/architecture/platform/cortex_m3/stm32/gpio.hpp:130-132 | with the mask 0xc0 as written, every input configuration of GPIO__IO is field value 0, the analog mode, unlike GPIO__INPUT's for the same arguments |
| Stm32Gpio.DriveEffect | src/xpcc/architecture/platform/cortex_m3/stm32/gpio.hpp:142-143 | a write to BSRR sets the pin's output bit, one to BRR clears it, and the other pins' bits are unchanged (also src/xpcc/architecture/platform/cortex_m3/stm32/gpio.hpp:195-196) |
| Stm32Gpio.ToggleFlips | src/xpcc/architecture/platform/cortex_m3/stm32/gpio.hpp:144-145 | a pin whose input reads back its output level changes level on toggle (also src/xpcc/architecture/platform/cortex_m3/stm32/gpio.hpp:197-198) |
| Stm32Gpio.GpioPort.constructor | src/xpcc/architecture/platform/cortex_m3/stm32/gpio.hpp:90-104 | the port's configuration, output and input registers start at the given values with no writes |
| Stm32Gpio.GpioPort.SetMode | src/xpcc/architecture/platform/cortex_m3/stm32/gpio.hpp:90-104 | pins 8-15 change CRH at field pin-8, pins 0-7 change CRL at field pin, and nothing else changes |
| Stm32Gpio.GpioPort.Set | src/xpcc/architecture/platform/cortex_m3/stm32/gpio.hpp:142 | one BSRR write of the pin's bit, setting its output bit (also src/xpcc/architecture/platform/cortex_m3/stm32/gpio.hpp:195) |
| Stm32Gpio.GpioPort.Reset | src/xpcc/architecture/platform/cortex_m3/stm32/gpio.hpp:143 | one BRR write of the pin's bit, clearing its output bit (also src/xpcc/architecture/platform/cortex_m3/stm32/gpio.hpp:196) |
| Stm32Gpio.GpioPort.SetStatus | src/xpcc/architecture/platform/cortex_m3/stm32/gpio.hpp:148-156 | set when the status is true, reset otherwise (also src/xpcc/architecture/platform/cortex_m3/stm32/gpio.hpp:199-207) |
| Stm32Gpio.GpioPort.Toggle | src/xpcc/architecture/platform/cortex_m3/stm32/gpio.hpp:144-145 | reset when the pin reads high, set otherwise (also src/xpcc/architecture/platform/cortex_m3/stm32/gpio.hpp:197-198) |
| Stm32Gpio.GpioPort.ConfigureOutput | src/xpcc/architecture/platform/cortex_m3/stm32/gpio.hpp:116-122 | the pin's field holds mode or type or speed, no other field changes, and nothing is written to the pins (also src/xpcc/architecture/platform/cortex_m3/stm32/gpio.hpp:188-194) |
| Stm32Gpio.GpioPort.SetOutput | src/xpcc/architecture/platform/cortex_m3/stm32/gpio.hpp:123-126 | the level is driven first, then the pin is configured as a push-pull output at 50 MHz (0x3) (also src/xpcc/architecture/platform/cortex_m3/stm32/gpio.hpp:184-187) |
| Stm32Gpio.GpioPort.ConfigureInput | src/xpcc/architecture/platform/cortex_m3/stm32/gpio.hpp:229-244 | the pin's field holds the input configuration; an input also drives its output bit high for a pull-up and low otherwise; analog writes no output bit (also src/xpcc/architecture/platform/cortex_m3/stm32/gpio.hpp:127-140) |
| Stm32Gpio.GpioPort.SetInput | src/xpcc/architecture/platform/cortex_m3/stm32/gpio.hpp:245 | a floating input, field value 0x4, with one BRR write clearing the output bit, as GPIO__INPUT::setInput does; for GPIO__IO pins (gpio.hpp:141) this is the corrected behaviour listed under Findings |
| Ssd1306.Interleave | src/xpcc/driver/display/ssd1306_impl.hpp:17 | interleaving command bytes with the control byte 0x80 doubles the length |
| Ssd1306.OddBytes | src/xpcc/driver/display/ssd1306_impl.hpp:17 | the controller's command bytes are half the bytes of a frame |
| Ssd1306.InterleaveAt | src/xpcc/driver/display/ssd1306_impl.hpp:17 | byte 2k of an interleaved command is 0x80 and byte 2k+1 is the k-th command byte (also src/xpcc/driver/display/ssd1306_impl.hpp:196-199) |
| Ssd1306.InterleaveDecodes | src/xpcc/driver/display/ssd1306_impl.hpp:17 | the controller reads back exactly the command bytes that were interleaved |
| Ssd1306.InterleaveOf | src/xpcc/driver/display/ssd1306_impl.hpp:17 | a buffer with 0x80 at every even byte and given bytes at the odd bytes is their interleaving (also src/xpcc/driver/display/ssd1306_impl.hpp:168-175) |
| Ssd1306.CommandFrame | src/xpcc/driver/display/ssd1306_impl.hpp:190-251 | a command with 0, 1 or 2 data bytes is sent as 2, 4 or 6 bytes |
| Ssd1306.ScrollPages | src/xpcc/driver/display/ssd1306_impl.hpp:163-166 | the requested pages are clipped to the display's eight pages: the start page is the origin when it lies on the display and page 7 otherwise, the end page is origin + size when that lies on the display and page 7 otherwise, and the start never follows the end |
| Ssd1306.ScrollCommand | src/xpcc/driver/display/ssd1306_impl.hpp:168-175 | the scroll setup is seven command bytes |
| Ssd1306.InitCommands | src/xpcc/driver/display/ssd1306_impl.hpp:49-67 | initialize issues 16 commands, each with at most two data bytes |
| Ssd1306.InitFrames | src/xpcc/driver/display/ssd1306_impl.hpp:49-67 | the frames of the first n initialization commands are n frames |
| Ssd1306.InitFramesAt | src/xpcc/driver/display/ssd1306_impl.hpp:49-67 | the k-th initialization frame is the k-th command of the sequence with its data |
| Ssd1306.InitSucceededAll | src/xpcc/driver/display/ssd1306_impl.hpp:49-69 | the and-accumulated result of initialize is true exactly when every command reported its own code |
| Ssd1306.CommandsAreNotTasks | src/xpcc/driver/display/ssd1306_impl.hpp:49-67 | no initialization command code equals the Idle, WriteDisplay or Ping task code, so a running command never makes the display unwritable (also src/xpcc/driver/display/ssd1306.hpp:210-219) |
| Ssd1306.FrameTransfer | src/xpcc/driver/display/ssd1306.hpp:242-270 | a configured frame transfer sends the column window 0..127, the page window 0..7, the data marker 0x40 and then the frame with a stop, and stays on the frame afterwards |
| Ssd1306.ScrollBufferIs | src/xpcc/driver/display/ssd1306_impl.hpp:168-175 | the command buffer after the seven scroll stores is the interleaved scroll command |
| Ssd1306.CommandBufferIs | src/xpcc/driver/display/ssd1306_impl.hpp:196-242 | the command buffer prefix sent by writeCommand is the frame of that command and its data |
| Ssd1306.DataAdapter.constructor | src/xpcc/driver/display/ssd1306.hpp:224-228 | the frame adapter starts in state 0x40 with its buffer 0x80, 0, 0x80, 0, 0x80, 0 |
| Ssd1306.DataAdapter.ConfigureWrite | src/xpcc/driver/display/ssd1306.hpp:230-239 | when the base adapter accepts the frame the state becomes 0xff; otherwise nothing changes |
| Ssd1306.DataAdapter.Writing | src/xpcc/driver/display/ssd1306.hpp:242-270 | the segment and next state are those of the four-step transfer, and the fixed bytes of the buffer are kept |
| Ssd1306.Display.constructor | src/xpcc/driver/display/ssd1306_impl.hpp:14-20 | the driver starts idle, with i2cSuccess 0 and the command buffer 0x80, 0 repeated seven times |
| Ssd1306.Display.StartTransactionWithLength | src/xpcc/driver/display/ssd1306_impl.hpp:255-265 | on a started transaction the first length bytes of the command buffer are sent and i2cTask becomes the command byte; otherwise nothing changes |
| Ssd1306.Display.WriteCommand | src/xpcc/driver/display/ssd1306_impl.hpp:190-251 | sends the command frame; success exactly when the completion reports the command's own code |
| Ssd1306.Display.Initialize | src/xpcc/driver/display/ssd1306_impl.hpp:43-73 | sends the 16 initialization frames in order and succeeds exactly when every command reported its own code; afterwards no transaction is pending and the last outcome is the sixteenth reported code |
| Ssd1306.Display.InvertDisplay | src/xpcc/driver/display/ssd1306_impl.hpp:106-116 | sends SetInvertedDisplay or SetNormalDisplay and reports its success; afterwards no transaction is pending, the last outcome is the reported code and the init flag is kept |
| Ssd1306.Display.SetContrast | src/xpcc/driver/display/ssd1306_impl.hpp:119-129 | sends SetContrastControl with the contrast byte and reports its success; afterwards no transaction is pending, the last outcome is the reported code and the init flag is kept |
| Ssd1306.Display.SetRotation | src/xpcc/driver/display/ssd1306_impl.hpp:131-146 | sends the segment remap (127 for Normal, 0 for UpsideDown), and only if it succeeded the scan direction (decrementing for Normal, incrementing for UpsideDown); success needs both; the last outcome is that of the last command sent, no transaction is pending and the init flag is kept |
| Ssd1306.Display.ConfigureScroll | src/xpcc/driver/display/ssd1306_impl.hpp:148-186 | disables scrolling first and stops on failure; otherwise sends the 14-byte interleaved scroll command and reports its success; the last outcome is that of the last transaction, no transaction is pending and the init flag is kept |
| Ssd1306.Display.FillCommand | src/xpcc/driver/display/ssd1306_impl.hpp:168-175 | the seven stores leave the command buffer equal to the interleaved scroll command |
| Ssd1306.Display.DoPing | src/xpcc/driver/display/ssd1306_impl.hpp:24-40 | success exactly when the ping is reported, with no command sent; afterwards no transaction is pending, the last outcome is the reported code and the init flag is kept |
| Ssd1306.Display.StartWriteDisplay | src/xpcc/driver/display/ssd1306_impl.hpp:76-87 | the frame adapter is configured with the 1024-byte frame and the display is not writable; the last outcome and the init flag are kept (also src/xpcc/driver/display/ssd1306.hpp:147-151) |
| Ssd1306.Display.DoWriteDisplay | src/xpcc/driver/display/ssd1306_impl.hpp:90-104 | success exactly when the write is reported, and the display is writable again with no transaction pending, the last outcome the reported code and the init flag kept (also src/xpcc/driver/display/ssd1306.hpp:147-151) |
| Enc28j60.JoinSplit | examples/stm32f4_discovery/ethernet/enc28j60/enc28j60_impl.hpp:27-28 | writing a 16-bit pointer as its low byte and its high byte and joining them gives the pointer back (also examples/stm32f4_discovery/ethernet/enc28j60/enc28j60_impl.hpp:137-138) |
| Enc28j60.LastWriteAppend | examples/stm32f4_discovery/ethernet/enc28j60/enc28j60_impl.hpp:137-170 | the value a register holds after more operations is the last value they wrote, or its earlier value if they wrote none |
| Enc28j60.PointerAfterWrite | examples/stm32f4_discovery/ethernet/enc28j60/enc28j60_impl.hpp:24-45 | writing a pointer register pair, low byte first, makes the pair hold the pointer until it is written again (also examples/stm32f4_discovery/ethernet/enc28j60/enc28j60_impl.hpp:137-138) |
| Enc28j60.PointerKeepsLast | examples/stm32f4_discovery/ethernet/enc28j60/enc28j60_impl.hpp:24-45 | a register pair written by a run of operations reads the same whatever operations the driver sent before it, so the pointer facts of initialize, receive and send hold at any point of the driver's history |
| Enc28j60.Count | examples/stm32f4_discovery/ethernet/enc28j60/enc28j60_impl.hpp:174 | an operation occurs at most as often as there are operations |
| Enc28j60.NotCounted | examples/stm32f4_discovery/ethernet/enc28j60/enc28j60_impl.hpp:174 | an operation that never occurs has count 0 |
| Enc28j60.CountAppend | examples/stm32f4_discovery/ethernet/enc28j60/enc28j60_impl.hpp:174 | counts add up over concatenated operation sequences |
| Enc28j60.ReceivedLength | examples/stm32f4_discovery/ethernet/enc28j60/enc28j60_impl.hpp:157-162 | the fetched length is the reported length minus 4 in 16-bit arithmetic, capped at maxlen; never more than maxlen, and for a count of at least 4 either maxlen or the count minus 4 |
| Enc28j60.FittingFrame | examples/stm32f4_discovery/ethernet/enc28j60/enc28j60_impl.hpp:157-162 | a frame that fits loses exactly its four CRC bytes |
| Enc28j60.ShortCountWraps | examples/stm32f4_discovery/ethernet/enc28j60/enc28j60_impl.hpp:159-162 | a reported count below 4 wraps around and the cap turns it into maxlen |
| Enc28j60.ReceiveDecrementsOnce | examples/stm32f4_discovery/ethernet/enc28j60/enc28j60_impl.hpp:173-174 | each received packet decrements the chip's packet counter exactly once |
| Enc28j60.ReceivePointers | examples/stm32f4_discovery/ethernet/enc28j60/enc28j60_impl.hpp:136-170 | the operations of one received packet leave the buffer read pointer where the packet started and the receive read pointer, which frees buffer space, at the next packet |
| Enc28j60.SendBufferContents | examples/stm32f4_discovery/ethernet/enc28j60/enc28j60_impl.hpp:199-203 | the transmit buffer receives the control byte 0x00 followed by the packet bytes |
| Enc28j60.SendPointers | examples/stm32f4_discovery/ethernet/enc28j60/enc28j60_impl.hpp:188-196 | the operations of one sent packet leave the write pointer at the transmit start and the end pointer at transmit start plus len in 16 bits, the last byte of control byte and packet |
| Enc28j60.BufferWritesAppend | examples/stm32f4_discovery/ethernet/enc28j60/enc28j60_impl.hpp:199-203 | the bytes written to buffer memory add up over concatenated operation sequences |
| Enc28j60.NoBufferWrites | examples/stm32f4_discovery/ethernet/enc28j60/enc28j60_impl.hpp:184-196 | operations that write no buffer memory contribute no buffer bytes |
| Enc28j60.NoWrites | examples/stm32f4_discovery/ethernet/enc28j60/enc28j60_impl.hpp:184-196 | operations that write other registers leave a pointer pair unwritten |
| Enc28j60.InitReceiveStart | examples/stm32f4_discovery/ethernet/enc28j60/enc28j60_impl.hpp:25-28 | the operations of initialize leave the receive start register pair (ERXST) holding the receive start of the configured buffer layout |
| Enc28j60.InitReceiveRead | examples/stm32f4_discovery/ethernet/enc28j60/enc28j60_impl.hpp:31-33 | the operations of initialize leave the receive read pointer pair (ERXRDPT) holding the receive start, so nothing of the buffer is yet released |
| Enc28j60.InitReceiveEnd | examples/stm32f4_discovery/ethernet/enc28j60/enc28j60_impl.hpp:36-39 | the operations of initialize leave the receive end register pair (ERXND) holding the configured receive stop |
| Enc28j60.InitTransmitStart | examples/stm32f4_discovery/ethernet/enc28j60/enc28j60_impl.hpp:42-45 | the operations of initialize leave the transmit start register pair (ETXST) holding the configured transmit start |
| Enc28j60.Driver.constructor | examples/stm32f4_discovery/ethernet/enc28j60/enc28j60_impl.hpp:26 | the driver records the buffer layout and has issued no operations |
| Enc28j60.Driver.Initialize | examples/stm32f4_discovery/ethernet/enc28j60/enc28j60_impl.hpp:8-120 | a soft reset, nextPacketPtr set to the receive start, the four pointer pairs written low byte first, then reception enabled |
| Enc28j60.Driver.ReceivePacket | examples/stm32f4_discovery/ethernet/enc28j60/enc28j60_impl.hpp:122-177 | with no packet pending returns 0 and reads nothing else; otherwise nextPacketPtr becomes the header's next pointer, len is the capped length, the packet array's first len bytes are the bytes after the 6-byte header and the rest is unchanged |
| Enc28j60.Driver.ReadBuffer | examples/stm32f4_discovery/ethernet/enc28j60/enc28j60_impl.hpp:164-165 | len bytes of the receive buffer land in the packet array and the rest of it is unchanged |
| Enc28j60.Driver.SendPacket | examples/stm32f4_discovery/ethernet/enc28j60/enc28j60_impl.hpp:180-207 | the transmit logic is reset, the write and end pointers set, the control byte and the first len packet bytes written, and transmission requested |
| SdCard.IndexInjective | examples/nucleo_l476rg/sdio/sdio1.h:35-59 | different commands carry different command indices |
| SdCard.Resp1KeepsBusyBit | examples/nucleo_l476rg/sdio_2/sdio1.cpp:397-400 | masking R1 with SD_RESP1_NO_ERROR keeps bit 31, the OCR busy bit the voltage poll tests (also examples/nucleo_l476rg/sdio_2/sdio1.cpp:59-60) |
| SdCard.PollFrom | examples/nucleo_l476rg/sdio_2/sdio1.cpp:49-62 | the poll stops after at most SD_MAX_TRIAL tries, and a poll that did not end ready either failed a try before running out or ran out with the card busy |
| SdCard.PollBounded | examples/nucleo_l476rg/sdio_2/sdio1.cpp:51-65 | a card that stays busy through all SD_MAX_TRIAL tries ends the poll with the tries used up and is not accepted |
| SdCard.PollStep | examples/nucleo_l476rg/sdio_2/sdio1.cpp:51-62 | one try: a failed APP_CMD or SD_APP_OP_COND ends the poll, a ready card ends it one try later, a busy card goes on to the next try |
| SdCard.PollSummary | examples/nucleo_l476rg/sdio_2/sdio1.cpp:51-65 | the loop's outcome is accepted exactly when a try found the card ready, and it issues two commands per try, one fewer when an APP_CMD fails |
| SdCard.ReadyOnLastTry | examples/nucleo_l476rg/sdio_2/sdio1.cpp:51-62 | a card first ready on the last allowed try ends the loop with tries equal to SD_MAX_TRIAL |
| SdCard.LastTryReadyFrom | examples/nucleo_l476rg/sdio_2/sdio1.cpp:51-62 | the answers in which the card becomes ready on try SD_MAX_TRIAL are busy on every earlier try |
| SdCard.LastTryRejectedAsWritten | examples/nucleo_l476rg/sdio_2/sdio1.cpp:64-65 | as written, the check after the loop rejects a card that became ready on the last allowed try, which the corrected check accepts (also examples/nucleo_l476rg/sdio/sdio1.h:168-169) |
| SdCard.AcceptanceDiffersOnlyOnLastTry | examples/nucleo_l476rg/sdio_2/sdio1.cpp:64-65 | the written and the corrected check disagree exactly when the card became ready on the last try |
| SdCard.PollAdvance | examples/nucleo_l476rg/sdio_2/sdio1.cpp:51-62 | one try issues APP_CMD, then SD_APP_OP_COND unless APP_CMD failed, and the poll goes on only when the card is busy |
| SdCard.PollingStarts | examples/nucleo_l476rg/sdio_2/sdio1.cpp:49-50 | the loop starts with no tries and the whole poll ahead |
| SdCard.PollingStep | examples/nucleo_l476rg/sdio_2/sdio1.cpp:51-62 | a try that finds the card busy or ready keeps the loop invariant with one more try |
| SdCard.PollingFails | examples/nucleo_l476rg/sdio_2/sdio1.cpp:53-58 | a failed try ends the poll, which is not accepted |
| SdCard.PollingEnds | examples/nucleo_l476rg/sdio_2/sdio1.cpp:51-65 | when the loop stops the poll is complete and the card is ready exactly when the poll accepts it |
| SdCard.PollTraceBound | examples/nucleo_l476rg/sdio_2/sdio1.cpp:51-62 | a poll issues at most two commands per remaining try |
| SdCard.CSize | examples/nucleo_l476rg/sdio_2/sdio1.cpp:298-300 | C_SIZE is a 22-bit value: six bits of RESP2 above sixteen bits of RESP3 |
| SdCard.CSizeIsCsdField | examples/nucleo_l476rg/sdio_2/sdio1.cpp:292-300 | the assembled C_SIZE is bits 69..48 of the 128-bit CSD register |
| SdCard.DivModField | examples/nucleo_l476rg/sdio_2/sdio1.cpp:292-300 | splitting the CSD at bit 48 gives the quotient and remainder it was built from |
| SdCard.DivModCSize | examples/nucleo_l476rg/sdio_2/sdio1.cpp:298-300 | taking the value modulo 2^22 keeps the C_SIZE bits |
| SdCard.CsdCapacity | examples/nucleo_l476rg/sdio_2/sdio1.cpp:302 | the capacity the CSD version 2.0 fields give is a whole number of 512 KiB units, from 512 KiB up to 2 TiB, which the 64-bit deviceSize holds (also examples/nucleo_l476rg/sdio_2/sdio1.cpp:409) |
| SdCard.SectorsCoverCapacity | examples/nucleo_l476rg/sdio_2/sdio1.cpp:301-302 | sector count times 512 is the capacity for every C_SIZE but the largest, where the sector count wraps to 0 |
| SdCard.PolledCapacityAsWritten | examples/nucleo_l476rg/sdio/sdio1.h:286-288 | as written the second assignment replaces the first, so deviceSize is the low 16 bits of C_SIZE times 512 KiB in 32 bits, and always less than the capacity the CSD describes |
| SdCard.PolledCapacityIsWrong | examples/nucleo_l476rg/sdio/sdio1.h:286-288 | a card with C_SIZE 7679 is reported 512 KiB short and one with C_SIZE 0x10000 as empty, where the CSD gives 3.75 GiB and 32 GiB |
| SdCard.IdentifyStartsWithReset | examples/nucleo_l476rg/sdio_2/sdio1.cpp:39-40 | identification begins with GO_IDLE_STATE, and a failed reset ends it unsuccessfully after that one command |
| SdCard.IdentifyEnds | examples/nucleo_l476rg/sdio_2/sdio1.cpp:72-80 | a successful identification ends with ALL_SEND_CID and SEND_REL_ADD |
| SdCard.IdentifyEndsAtRelAdd | examples/nucleo_l476rg/sdio_2/sdio1.cpp:76-80 | the relative address kept comes from the reply to the last command of the identification, SEND_REL_ADD |
| SdCard.IdentifySucceeded | examples/nucleo_l476rg/sdio_2/sdio1.cpp:35-80 | a successful identification issues the reset, the version 2.0 probe and APP_CMD first, and the CID and address reads last |
| SdCard.IdentifyMmc | examples/nucleo_l476rg/sdio_2/sdio1.cpp:47-70 | a card that rejects APP_CMD is identified as an MMC without the voltage poll |
| SdCard.IdentifyPolled | examples/nucleo_l476rg/sdio_2/sdio1.cpp:47-66 | an SD card is identified only when the poll found it ready, after at most 5 + 2 * SD_MAX_TRIAL commands |
| SdCard.IdentifySplits | examples/nucleo_l476rg/sdio_2/sdio1.cpp:35-80 | once the first part succeeds the identification continues with the address commands |
| SdCard.IdentifyOkSplits | examples/nucleo_l476rg/sdio_2/sdio1.cpp:72-80 | after a successful first part the identification succeeds exactly when both address commands do |
| SdCard.IdentifyStopsAtProbe | examples/nucleo_l476rg/sdio_2/sdio1.cpp:39-65 | a failed first part ends the identification unsuccessfully |
| SdCard.ProbeCases | examples/nucleo_l476rg/sdio_2/sdio1.cpp:39-70 | the first part either fails at the reset, or finds an MMC after the probe, or runs the poll and succeeds exactly when it finds the card ready |
| SdCard.TransferCommandChoice | examples/nucleo_l476rg/sdio_2/sdio1.cpp:113-119 | the data command is a single-block one exactly when one block moves, and a write command exactly when the transfer is a write (also examples/nucleo_l476rg/sdio_2/sdio1.cpp:206-212) |
| SdCard.Host.constructor | examples/nucleo_l476rg/sdio_2/sdio1.cpp:407-408 | the card type starts as StdCapacityV1 and the relative address as 0, with no command issued |
| SdCard.Host.SendCommand | examples/nucleo_l476rg/sdio_2/sdio1.cpp:377-395 | the command is issued and its outcome is the verdict of the flags the wait ended on (also examples/nucleo_l476rg/sdio/sdio1.h:360-379) |
| SdCard.Host.PollTry | examples/nucleo_l476rg/sdio_2/sdio1.cpp:53-60 | one try: APP_CMD, then SD_APP_OP_COND, which must report a CRC failure because R3 has none, then the busy bit of the masked response |
| SdCard.Host.PollOnce | examples/nucleo_l476rg/sdio_2/sdio1.cpp:51-62 | one pass of the loop keeps its invariant, or ends the poll unsuccessfully on a failed try |
| SdCard.Host.PollVoltage | examples/nucleo_l476rg/sdio_2/sdio1.cpp:49-65 | issues exactly the poll's commands and succeeds exactly when a try found the card ready, using the corrected check after the loop |
| SdCard.Host.Probe | examples/nucleo_l476rg/sdio_2/sdio1.cpp:39-70 | resets the card, records a high-capacity card when the version 2.0 probe succeeds and an MMC when APP_CMD fails, and otherwise runs the voltage poll |
| SdCard.Host.Identify | examples/nucleo_l476rg/sdio_2/sdio1.cpp:35-80 | issues the identification commands and succeeds exactly when all of them do; on success the relative address is the masked R1 of SEND_REL_ADD, on failure it is unchanged |
| SdCard.Host.FinishIdentify | examples/nucleo_l476rg/sdio_2/sdio1.cpp:72-80 | after a successful first part, the address commands decide the identification; a failure leaves the relative address unchanged |
| SdCard.Host.RequestAddress | examples/nucleo_l476rg/sdio_2/sdio1.cpp:72-80 | ALL_SEND_CID, then SEND_REL_ADD, whose masked R1 becomes the relative address; either failing ends with failure and leaves the relative address unchanged |
| SdioPolled.CardAddressScaling | examples/nucleo_l476rg/sdio/sdio1.h:191-194 | on a high-capacity card the block number times 512 wraps in 32 bits: the address is the low 23 bits of the block shifted by 9, and blocks 2^23 apart share an address; other cards get the block number unchanged (also examples/nucleo_l476rg/sdio/sdio1.h:234-237) |
| SdioPolled.TransferAlwaysStops | examples/nucleo_l476rg/sdio/sdio1.h:188-229 | every transfer issues the data command and then STOP_TRANSMISSION, also for a single block; the data command is single-block exactly for one block and a write exactly for writeBlocks (also examples/nucleo_l476rg/sdio/sdio1.h:231-272) |
| SdioPolled.InitStops | examples/nucleo_l476rg/sdio/sdio1.h:143-180 | a failed identification ends initializeCard with 1 and no further command |
| SdioPolled.InitOkAfter | examples/nucleo_l476rg/sdio/sdio1.h:181-185 | after a successful identification initializeCard returns 0 exactly when SELECT_CARD succeeds; the SEND_CSD outcome is ignored |
| SdioPolled.InitSelectsAddressedCard | examples/nucleo_l476rg/sdio/sdio1.h:178-182 | a successful initialisation reads the CSD of and selects the card whose address the SEND_REL_ADD reply carried |
| SdioPolled.InitStartsWithReset | examples/nucleo_l476rg/sdio/sdio1.h:143-144 | initialisation begins with GO_IDLE_STATE and stops there with failure when it fails |
| SdioPolled.Sdio1.constructor | examples/nucleo_l476rg/sdio/sdio1.h:390-392 | the card type starts as StdCapacityV1 and the relative address and device size at 0 |
| SdioPolled.Sdio1.GetCardInfo | examples/nucleo_l476rg/sdio/sdio1.h:274-288 | issues SEND_CSD with the relative address; fails exactly when it fails; on success the device size is the CSD capacity |
| SdioPolled.Sdio1.InitializeCard | examples/nucleo_l476rg/sdio/sdio1.h:138-186 | issues the identification, SEND_CSD and SELECT_CARD commands, returns 0 exactly when the identification and SELECT_CARD succeed, records the card type and the relative address SEND_REL_ADD gave (or keeps the old one), and sets the size from the CSD reply only after a successful identification |
| SdioPolled.Sdio1.ReadCsdAndSelect | examples/nucleo_l476rg/sdio/sdio1.h:181-185 | getCardInfo, whose result is ignored, then SELECT_CARD with the relative address, deciding the result |
| SdioPolled.Sdio1.SelectIdentified | examples/nucleo_l476rg/sdio/sdio1.h:181-185 | after a successful identification, SEND_CSD and SELECT_CARD are issued, the result is 0 exactly when the whole initialisation succeeds, and the device size is the one the CSD reply gives |
| SdioPolled.Sdio1.ReadBlocks | examples/nucleo_l476rg/sdio/sdio1.h:188-229 | issues the read command at the card address, then STOP_TRANSMISSION, and fails exactly when STOP_TRANSMISSION fails |
| SdioPolled.Sdio1.WriteBlocks | examples/nucleo_l476rg/sdio/sdio1.h:231-272 | the same command sequence with the write commands |
| SdioDisk.InitStops | examples/nucleo_l476rg/sdio_2/sdio1.cpp:39-80 | a failed identification ends the initialisation after the identification commands, and it fails |
| SdioDisk.InitOkAfter | examples/nucleo_l476rg/sdio_2/sdio1.cpp:81-100 | after a successful identification, the initialisation succeeds exactly when the bus setup does |
| SdioDisk.InitEndsWithWideBus | examples/nucleo_l476rg/sdio_2/sdio1.cpp:76-92 | a successful initialisation ends with SEND_REL_ADD, SEND_CSD and SELECT_CARD at the address SEND_REL_ADD answered, then APP_CMD and SET_BUS_WIDTH with argument 2 |
| SdioDisk.InitStopsAtFailure | examples/nucleo_l476rg/sdio_2/sdio1.cpp:81-92 | a failed initialisation after a successful identification stops at the first failing bus setup command, two to four commands after the identification |
| SdioDisk.TransferStopsIffMultiple | examples/nucleo_l476rg/sdio_2/sdio1.cpp:112-147 | STOP_TRANSMISSION is sent exactly when the data command succeeded and more than one block moves; the single-block command is used exactly for one block, the write command exactly for a write, at the given block address (also examples/nucleo_l476rg/sdio_2/sdio1.cpp:205-240) |
| SdioDisk.TransferFailsAtLastCommand | examples/nucleo_l476rg/sdio_2/sdio1.cpp:137-148 | a transfer fails exactly when its last command fails (also examples/nucleo_l476rg/sdio_2/sdio1.cpp:228-239) |
| SdioDisk.FirstIdle | examples/nucleo_l476rg/sdio_2/sdio1.cpp:242-247 | the first status from a command number on that shows the card neither receiving data nor programming, with every status before it busy |
| SdioDisk.FirstIdleIs | examples/nucleo_l476rg/sdio_2/sdio1.cpp:242-247 | the first idle status does not depend on the bound used to find it |
| SdioDisk.StatusPolls | examples/nucleo_l476rg/sdio_2/sdio1.cpp:245 | k status polls are k commands |
| SdioDisk.StatusPollsAreStatus | examples/nucleo_l476rg/sdio_2/sdio1.cpp:245 | every status poll is a SEND_STATUS to the card's relative address |
| SdioDisk.WaitEndsWhenIdle | examples/nucleo_l476rg/sdio_2/sdio1.cpp:242-247 | the wait issues SEND_STATUS to the card until, and including, the first status that shows it idle, and every earlier status showed it busy |
| SdioDisk.WriteTraceOk | examples/nucleo_l476rg/sdio_2/sdio1.cpp:228-247 | after a successful transfer the write continues with the wait, which starts after the transfer's commands |
| SdioDisk.WriteTraceFails | examples/nucleo_l476rg/sdio_2/sdio1.cpp:228-240 | after a failed transfer the write issues nothing more |
| SdioDisk.TakeField | examples/nucleo_l476rg/sdio_2/sdio1.cpp:420-428 | taking a 4-, 5- or 6-bit field off a packed value gives back the field and the rest |
| SdioDisk.UnpackPack | examples/nucleo_l476rg/sdio_2/sdio1.cpp:420-428 | the packed FAT date and time unpacks to the same year, month, day, hour, minute and (even) second |
| SdioDisk.FatTimeIsFixed | examples/nucleo_l476rg/sdio_2/sdio1.cpp:420-428 | every file is stamped 30 May 2010, 16:00:00 |
| SdioDisk.Sdio1.constructor | examples/nucleo_l476rg/sdio_2/sdio1.cpp:407-410 | the driver starts as a standard-capacity version 1 card at address 0 with zero device size and sector count, and no command issued |
| SdioDisk.Sdio1.GetCardInfo | examples/nucleo_l476rg/sdio_2/sdio1.cpp:287-302 | issues SEND_CSD to the card's address; a failure returns 1 and keeps the sizes; otherwise the sizes are read from the reply |
| SdioDisk.Sdio1.InitializeCard | examples/nucleo_l476rg/sdio_2/sdio1.cpp:35-101 | issues the identification and then the bus setup commands, stopping at the first failure, and returns 0 exactly when every command succeeded; records the card type and the relative address, and takes the sizes from the CSD reply only after a successful identification, keeping them otherwise |
| SdioDisk.Sdio1.SetUpBus | examples/nucleo_l476rg/sdio_2/sdio1.cpp:81-100 | reads the CSD, whatever its result, then SELECT_CARD, APP_CMD and SET_BUS_WIDTH, returning 0 exactly when the last three succeed |
| SdioDisk.Sdio1.SetUpIdentified | examples/nucleo_l476rg/sdio_2/sdio1.cpp:81-100 | after a successful identification, the bus setup issues its commands, returns 0 exactly when the whole initialisation succeeds, and leaves the sizes the CSD reply gives, the card type and the relative address |
| SdioDisk.Sdio1.SwitchToWideBus | examples/nucleo_l476rg/sdio_2/sdio1.cpp:89-92 | APP_CMD, then SET_BUS_WIDTH(2) if it succeeded; 0 exactly when both succeed |
| SdioDisk.Sdio1.Transfer | examples/nucleo_l476rg/sdio_2/sdio1.cpp:112-148 | the data command and, for more than one block after its success, STOP_TRANSMISSION; 0 exactly when the transfer succeeds (also examples/nucleo_l476rg/sdio_2/sdio1.cpp:205-240) |
| SdioDisk.Sdio1.ReadBlocks | examples/nucleo_l476rg/sdio_2/sdio1.cpp:103-149 | issues the read transfer's commands and returns 0 exactly when it succeeds |
| SdioDisk.Sdio1.WriteBlocks | examples/nucleo_l476rg/sdio_2/sdio1.cpp:195-249 | issues the write transfer's commands and, only when it succeeded, waits for the card to be idle; returns 0 exactly when the transfer succeeds |
| SdioDisk.Sdio1.RequestStatus | examples/nucleo_l476rg/sdio_2/sdio1.cpp:245-246 | one SEND_STATUS to the card, whose reply gives the card state |
| SdioDisk.Sdio1.PollAgain | examples/nucleo_l476rg/sdio_2/sdio1.cpp:243-247 | one more turn of the wait adds one status poll and reports whether the card is still busy |
| SdioDisk.Sdio1.WaitWhileBusy | examples/nucleo_l476rg/sdio_2/sdio1.cpp:242-247 | polls the card's status until it is neither receiving data nor programming, exactly the polls of the wait |
| SdioDisk.Disk.constructor | examples/nucleo_l476rg/sdio_2/sdio1.cpp:416 | the drive starts uninitialised with no command issued |
| SdioDisk.Disk.Status | examples/nucleo_l476rg/sdio_2/sdio1.cpp:431-440 | the status is 0 exactly when the drive is initialised, and STA_NOINIT otherwise |
| SdioDisk.Disk.Initialize | examples/nucleo_l476rg/sdio_2/sdio1.cpp:442-454 | an initialised drive issues nothing and stays initialised; otherwise the card is initialised, with its type, relative address and sizes as initializeCard leaves them, and the drive becomes initialised exactly when that succeeds; the result is 0 exactly when the drive is initialised |
| SdioDisk.Disk.Read | examples/nucleo_l476rg/sdio_2/sdio1.cpp:456-463 | RES_OK exactly when the read transfer succeeds; the card type and relative address are kept |
| SdioDisk.Disk.Write | examples/nucleo_l476rg/sdio_2/sdio1.cpp:465-472 | RES_OK exactly when the write transfer succeeds; the wait, with the relative address, follows only a successful transfer; the card type and relative address are kept |
| SdioDisk.Disk.Ioctl | examples/nucleo_l476rg/sdio_2/sdio1.cpp:474-485 | re-reads the CSD with the relative address and takes the device size from its reply, then answers the sector count or a block size of 512, leaves other commands unanswered, and always returns RES_OK |
| SdioExample.Digits | examples/nucleo_l476rg/sdio/main.cpp:42-57 | the decimal digits of a number, most significant first, never empty |
| SdioExample.LowDigits | examples/nucleo_l476rg/sdio/main.cpp:42-47 | the digits in the order the first loop produces them, least significant first, never empty |
| SdioExample.Reverse | examples/nucleo_l476rg/sdio/main.cpp:52-57 | reversing keeps the length |
| SdioExample.ReverseIndex | examples/nucleo_l476rg/sdio/main.cpp:52-57 | character k of the reversed string is character n - 1 - k of the original |
| SdioExample.DigitsReverse | examples/nucleo_l476rg/sdio/main.cpp:42-57 | reversing the digits in production order gives them in written order |
| SdioExample.ParseDigits | examples/nucleo_l476rg/sdio/main.cpp:35-60 | the digits read back as a decimal number give the number |
| SdioExample.DigitsAreDecimal | examples/nucleo_l476rg/sdio/main.cpp:44 | every character is a decimal digit, and only zero is written with a leading '0' |
| SdioExample.DigitCount | examples/nucleo_l476rg/sdio/main.cpp:42-49 | a number has at most k digits exactly when it is below 10^k |
| SdioExample.DigitsOfUint32 | examples/nucleo_l476rg/sdio/main.cpp:35-39 | a 32-bit number has at most ten digits, so the 32-character scratch buffer suffices |
| SdioExample.LowDigitsLength | examples/nucleo_l476rg/sdio/main.cpp:42-57 | both digit orders have the same length |
| SdioExample.PendingStep | examples/nucleo_l476rg/sdio/main.cpp:42-47 | while something is left, the next digit is its last decimal digit and the rest come from its tenth |
| SdioExample.LowDigitsSplit | examples/nucleo_l476rg/sdio/main.cpp:44-45 | producing one digit leaves exactly the digits of the number divided by ten |
| SdioExample.UIntToString | examples/nucleo_l476rg/sdio/main.cpp:35-60 | writes the decimal digits of the number followed by a NUL, leaves the rest of the buffer alone and returns the digit count, between 1 and 10 (also examples/nucleo_l476rg/sdio_2/main.cpp:42-67) |
| SdioExample.ProduceDigits | examples/nucleo_l476rg/sdio/main.cpp:42-49 | the first loop stores the digits least significant first, at most ten of them |
| SdioExample.CopyReversed | examples/nucleo_l476rg/sdio/main.cpp:52-57 | the second loop stores the scratch digits in reverse order and leaves the buffer beyond them alone |
| SdioExample.Generator.constructor | examples/nucleo_l476rg/sdio/main.cpp:19 | the generator state starts at 314159265 (also examples/nucleo_l476rg/sdio_2/main.cpp:26) |
| SdioExample.Generator.Next | examples/nucleo_l476rg/sdio/main.cpp:20-26 | one xorshift32 step, the three shift-xor updates modulo 2^32, is stored and returned (also examples/nucleo_l476rg/sdio_2/main.cpp:27-33) |
| SdioExample.FillChar | examples/nucleo_l476rg/sdio/main.cpp:203 | every fill character is printable ASCII between '!' and 'y' (also examples/nucleo_l476rg/sdio_2/main.cpp:563) |
| SdioExample.Fill | examples/nucleo_l476rg/sdio/main.cpp:201-204 | fills every buffer position i with the fill character of generator output i + 1, leaving the generator that many steps on (also examples/nucleo_l476rg/sdio_2/main.cpp:561-564) |
| SdioExample.FileNamesDistinct | examples/nucleo_l476rg/sdio/main.cpp:207-214 | different file numbers give different names, and no name contains a NUL (also examples/nucleo_l476rg/sdio_2/main.cpp:567-574) |
| SdioExample.MakeFileName | examples/nucleo_l476rg/sdio/main.cpp:209-214 | the 32-character name buffer holds the file number's digits, then ".txt", then a NUL (also examples/nucleo_l476rg/sdio_2/main.cpp:569-574) |

## Left out

- Boost.Asio plumbing: sockets, `async_accept`/`async_read`, the io_service, the `connectedMutex` lock and `Receiver::run`'s 10 ms sleep loop. One call of `Run` is one turn of that loop, and the byte stream and the accept result are inputs.
- The receiver's logging and the `socket.shutdown`/`close` error codes at tcpip_receiver.cpp:116-129 are left out. Closing is the `Closed` phase.
- After a failed accept, the source's `run` polls `connected` forever. The model makes that a terminal phase in which `Run` does nothing.
- The native byte layout of the `TCPHeader` struct copied by `reinterpret_cast` is replaced by a fixed 10-byte little-endian encoding. Padding and the host's endianness are not modelled.
- `dataStorage` is declared in tcpip_message.hpp, which is not part of this model. The model gives it 265 bytes, the longest frame a `uint8_t` data size allows (10 + 255).
- Dispatcher, Postman, the backend implementations and SmartPointer reference counting are not part of this model. The backend and the parent client are logs.
- The parent client's `getServerPort()` is a constructor parameter.
- In `Enc28j60.Driver.Initialize`, the CLKRDY busy-wait, the delays, the debug `printf` reads and the MAC/PHY register setup after the pointers (enc28j60_impl.hpp:17-20, 48-119) are not modelled. `RXSTART_INIT`, `RXSTOP_INIT` and `TXSTART_INIT` are constructor parameters, because their definitions are not part of this model.
- Nrf24Phy: `pulseCe`, `setCe` and `resetCe` (nrf24_phy_impl.hpp:341-367) drive a pin with a delay and are not modelled. Chip-select framing is one logged transaction.
- Nrf24Phy: the address width is fixed at 5 bytes and the pipe count at 6, because the driver's definitions header is not part of this model.
- The nRF24 command and register codes are a datatype, not their byte values.
- SoftwareSpi: the delays between clock edges are not modelled. The source tests the bit order on every bit; the model tests it once per byte, which gives the same result because `operationMode` does not change during an exchange.
- Resumable functions (`RF_*`, `CO_*`) of the PCA8574 and SSD1306 drivers are single atomic steps that take the bus outcome as a parameter. The coroutine machinery is not modelled.
- Ssd1306: every wait for a free adapter is taken to end with the transaction started. After a finished transfer, `i2cTask` returns to `Idle` within the same step.
- Pca8574.Expander.ReadPort: on a failed read the input shadow stays unchanged. What a failed transaction leaves in `input` is up to the I2C master, which is not part of this model.
- Mcp23x17: the transport coroutines that read and write the chip (mcp23x17_impl.hpp) are not part of this model. Only the shown bit tests, the packed layout and the pin encoding are modelled.
- The SD card and the SDMMC peripheral are a stream of answers, one per command. The status-register waits, the FIFO copy loops and the data words moved are left out.
- The interrupt handlers (sdio_2/sdio1.cpp:490-529) and the DMA transfer variants (sdio_2/sdio1.cpp:151-193 and 251-285) are not modelled.
- `maxTransferRate` and its floating-point multipliers (sdio_2/sdio1.cpp:304-369, sdio/sdio1.h:290-355) are not modelled.
- The clock and DMA register writes of `initializeCard` (sdio_2/sdio1.cpp:37, 93-98) are not modelled.
- `powerOn` is not modelled.
- SdCard.Host.PollVoltage, SdCard.Host.Probe, SdCard.Host.Identify, SdioDisk.Sdio1.InitializeCard and SdioPolled.Sdio1.InitializeCard run the corrected check after the voltage loop (fail only when the card never became ready), not the source's `tries >= SD_MAX_TRIAL`. The check as written is SdCard.LastTryRejectedAsWritten; see Findings.
- SdioPolled.Sdio1.GetCardInfo, SdioPolled.Sdio1.InitializeCard, SdioPolled.Sdio1.SelectIdentified and SdioPolled.Sdio1.ReadCsdAndSelect compute the device size with the corrected formula, (C_SIZE + 1) * 512 KiB in 64 bits (SdCard.CsdCapacity). The computation as written is SdCard.PolledCapacityAsWritten; see Findings.
- Stm32Gpio.GpioPort.ConfigureInput and Stm32Gpio.GpioPort.SetInput use the 0xc mask also for GPIO__IO pins (gpio.hpp:127-141). The field as written is Stm32Gpio.IoInputConfigAsWritten; see Findings.
- Nrf24Phy.Phy.ReadRxPayloadInto requires the buffer to hold the bytes it reads, and Nrf24Phy.Phy.WriteTxPayloadFrom, Nrf24Phy.Phy.WriteTxPayloadNoAckFrom and Nrf24Phy.Phy.WriteAckPayloadFrom require it to hold the len bytes they send. The source trusts the caller's buffer; an overrun is not modelled.
- SdioDisk.Sdio1.GetCardInfo and SdioPolled.Sdio1.GetCardInfo: `failed` stands for the path that returns 1. The other path falls off the end of the function without a return value, which is undefined behaviour, so no value is modelled for it.
- SdioPolled.Sdio1.ReadBlocks and SdioPolled.Sdio1.WriteBlocks: `failed` stands for the path that returns 1. The other path ends without a return value.
- SdioDisk.Sdio1.WriteBlocks and SdioDisk.Disk.Write: the status loop of the source ends only when the card reports an idle state. These methods require a command number `end` at which it does, but only when the transfer succeeds. A card that stays busy forever is not modelled.
- The `disk_*` functions ignore the drive number, so the model has no drive number. `STA_NOINIT` is 0x01, as in FatFs, because ffconf/diskio headers are not part of this model.
- SdioExample.UIntToString is split into its two loops, `ProduceDigits` and `CopyReversed`.
- SdioExample.UIntToString takes the caller's buffer length as a requirement (room for the digits and the NUL). The source trusts the caller.
- SdioExample.Fill: the buffer length is the array's length, 10240 in the source.
- SdioExample: that xorshift32 is a bijection of the nonzero states is not proved.
- The `main()` bodies of the SD examples, with FatFs calls and UART output, are not modelled.
- Floating point, board and clock configuration, `lock.hpp` and the other files of the repository are outside this model.

## Findings

| source | as written | input that shows it | evidently intended | confidence | as-written member | corrected member |
|---|---|---|---|---|---|---|
| src/xpcc/architecture/platform/cortex_m3/stm32/gpio.hpp:132 | `GPIO__IO::configureInput` masks the configuration with `0xc0`, so the 4-bit field written is always 0, the analog mode | `configureInput(INPUT, FLOATING)` writes 0 where `GPIO__INPUT` writes 0x4 | the mask `0xc`, as `GPIO__INPUT::configure` uses at gpio.hpp:236 | high (not executed) | Stm32Gpio.IoInputConfigIsAnalog | Stm32Gpio.GpioPort.ConfigureInput |
| examples/nucleo_l476rg/sdio_2/sdio1.cpp:64-65 | after the voltage loop, `if(tries >= SD_MAX_TRIAL) return 1;` also rejects a card that became ready on the last allowed try | answers busy for the first 0xFFFE tries and ready on try 0xFFFF: the loop ends with `voltage == 1` and `tries == SD_MAX_TRIAL`, and initialisation fails | fail only when the card never became ready (`!voltage`); sdio/sdio1.h:168-169 has the same check | medium (not executed) | SdCard.LastTryRejectedAsWritten | SdCard.PollSummary |
| examples/nucleo_l476rg/sdio/sdio1.h:286-288 | the second assignment to `deviceSize` replaces the first, so the high six bits of C_SIZE and the `+ 1` are lost, and the product is taken in 32 bits | C_SIZE 7679 (RESP3 = 0x1DFF0000) gives 0xEFF80000 instead of 0xF0000000; C_SIZE 0x10000 (RESP2 = 1, RESP3 = 0) gives 0 instead of 32 GiB | `deviceSize = (C_SIZE + 1) * 512 KiB` in 64 bits, as sdio_2/sdio1.cpp:298-302 computes | high (not executed) | SdCard.PolledCapacityIsWrong | SdCard.CsdCapacity |
